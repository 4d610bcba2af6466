/**
 * The CAR-100 protocol engine as values: one step function per operation of
 * the engine, each taking the engine's fields together with the stream it
 * owns and giving the new fields, the new stream and the outcome.  The
 * imperative engine in module Car100 is proved to do exactly what these
 * functions say; the lemmas here state what the protocol promises of them.
 */
module Car100Model {
  import opened Base
  import opened Protocol
  import opened Transport

  /** The fields of one engine: status, time of the last traffic, and the driver's intent. */
  datatype Car = Car(status: Status, lastData: int, gear: Byte, acc: Byte, dir: Byte)
  {
    predicate IntentValid()
    {
      IsGear(gear) && IsAcc(acc) && IsDir(dir)
    }
  }

  /** An engine together with the stream it owns. */
  datatype Conn = Conn(car: Car, link: LinkState)

  /** How a setter or `mClose` ends: normally, with an IOException, or with an IllegalArgumentException. */
  datatype Outcome = Done | IoError | BadArgument

  /** A status poll either returns a status or throws an IOException. */
  datatype Fallible<T> = Ok(value: T) | LinkError

  /** Milliseconds of silence after which a poll probes the link with a keep-alive. */
  const IdleLimit := 10000

  /** `mReset`: neutral intent, gear 2, stop, straight; nothing else changes. */
  function ResetIntent(c: Car): (r: Car)
    ensures r.IntentValid()
    ensures r.gear == 2 && r.acc == AccStop && r.dir == DirStraight
    ensures r.status == c.status && r.lastData == c.lastData
  {
    c.(gear := NeutralGear, acc := AccStop, dir := DirStraight)
  }

  /** `mSend`: one line on the stream; the activity time is set only when the whole line went out. */
  function SendStep(k: Conn, m: Msg, now: int): (r: (Conn, bool))
    ensures r.0.car == (if r.1 then k.car.(lastData := now) else k.car)
    ensures r.0.link == k.link.(written := r.0.link.written, budget := r.0.link.budget)
  {
    var (l, ok) := SendEffect(k.link, m);
    (Conn(if ok then k.car.(lastData := now) else k.car, l), ok)
  }

  lemma SendStepHealthy(k: Conn, m: Msg, now: int)
    requires k.link.budget.Unlimited?
    ensures SendStep(k, m, now) == (Conn(k.car.(lastData := now), k.link.(written := k.link.written + Frame(m))), true)
  {
    SendHealthy(k.link, m);
  }

  // ---------------------------------------------------------------------
  // Status poll (`mGetStatus`)
  // ---------------------------------------------------------------------

  /** Where the read and acknowledge part of a poll ends. */
  datatype Drained = Drained(status: Status, lastData: int, link: LinkState, ok: bool)

  /**
   * The `while (availableBytes > 0)` loop, from one `available()` call on:
   * read a chunk, classify it, answer OK, ask again.
   */
  function Drain(st: Status, last: int, l: LinkState, now: int): (r: Drained)
    ensures r.ok ==> r.link.pending == []
    ensures r.status != st && r.status != NoLink ==> r.status == Ready || r.status == Charging || r.status == ChargeFull
    ensures r.link.closeOk == l.closeOk && r.link.closed == l.closed
    decreases |l.pending|
  {
    if l.pending == [] then Drained(st, last, l, true)
    else match l.pending[0]
      case Fault => Drained(NoLink, last, l, false)
      case Eof => Drained(NoLink, now, l.(pending := l.pending[1..]), false)
      case Data(t) =>
        var (l', ok) := SendEffect(l.(pending := l.pending[1..]), Some(Ack));
        if ok then Drain(Classify(t, st), now, l', now) else Drained(NoLink, now, l', false)
  }

  /** The body of `mGetStatus` after the dead-link check: the keep-alive condition, then the loop. */
  function Exchange(st: Status, last: int, l: LinkState, now: int): (r: Drained)
    ensures r.ok ==> r.link.pending == []
    ensures r.status != st && r.status != NoLink ==> r.status == Ready || r.status == Charging || r.status == ChargeFull
    ensures r.link.closeOk == l.closeOk && r.link.closed == l.closed
  {
    if ProbeOf(l) == Quiet && now - last > IdleLimit then
      var (l', ok) := SendEffect(l, None);
      if ok then Drained(st, now, l', true) else Drained(NoLink, last, l', false)
    else Drain(st, last, l, now)
  }

  /** `mGetStatus`. */
  function PollStep(k: Conn, now: int): (r: (Conn, Fallible<Status>))
    ensures r.1.Ok? ==> r.1.value == r.0.car.status
    ensures r.1.Ok? && k.car.status != NoLink ==> r.0.link.pending == []
    ensures r.0.car.status != k.car.status && r.0.car.status != NoLink ==>
              r.0.car.status == Ready || r.0.car.status == Charging || r.0.car.status == ChargeFull
    ensures r.0.link.closed == k.link.closed
  {
    if k.car.status == NoLink then (k, Ok(NoLink))
    else
      var e := Exchange(k.car.status, k.car.lastData, k.link, now);
      var c := k.car.(status := e.status, lastData := e.lastData);
      if !e.ok then (Conn(c, e.link), LinkError)
      else if e.status != k.car.status then (Conn(ResetIntent(c), e.link), Ok(e.status))
      else (Conn(c, e.link), Ok(e.status))
  }

  /** A dead engine is inert: it reports NO_LINK and touches neither its fields nor the stream. */
  lemma DeadEngineInert(k: Conn, now: int)
    requires k.car.status == NoLink
    ensures PollStep(k, now) == (k, Ok(NoLink))
  {
  }

  /** Nothing to read and traffic within the last ten seconds: no write, nothing changes. */
  lemma QuietPollWritesNothing(k: Conn, now: int)
    requires k.car.status != NoLink && k.link.pending == []
    requires now - k.car.lastData <= IdleLimit
    ensures PollStep(k, now) == (k, Ok(k.car.status))
  {
  }

  /** Nothing to read and more than ten seconds of silence: exactly one keep-alive line. */
  lemma IdlePollSendsKeepAlive(k: Conn, now: int)
    requires k.car.status != NoLink && k.link.pending == []
    requires now - k.car.lastData > IdleLimit
    requires k.link.budget.Unlimited?
    ensures PollStep(k, now) == (Conn(k.car.(lastData := now), k.link.(written := k.link.written + [CRLF])), Ok(k.car.status))
  {
    SendHealthy(k.link, None);
  }

  /** One turn of the loop on a healthy link: the chunk is classified and answered with one OK line. */
  lemma DrainDataStep(st: Status, last: int, l: LinkState, now: int)
    requires l.budget.Unlimited? && l.pending != [] && l.pending[0].Data?
    ensures Drain(st, last, l, now) ==
            Drain(Classify(l.pending[0].text, st), now,
                  l.(pending := l.pending[1..], written := l.written + Frame(Some(Ack))), now)
  {
    SendHealthy(l.(pending := l.pending[1..]), Some(Ack));
  }

  /** The texts of a run of data chunks. */
  predicate AllData(cs: seq<Chunk>)
  {
    forall i :: 0 <= i < |cs| ==> cs[i].Data?
  }

  function Texts(cs: seq<Chunk>): (ts: seq<string>)
    requires AllData(cs)
    ensures |ts| == |cs| && forall i :: 0 <= i < |cs| ==> ts[i] == cs[i].text
  {
    seq(|cs|, i requires 0 <= i < |cs| => cs[i].text)
  }

  /** `n` acknowledgement lines. */
  function Acks(n: nat): (r: seq<Msg>)
    ensures |r| == n && forall i :: 0 <= i < n ==> r[i] == Some(Ack)
  {
    seq(n, _ => Some(Ack))
  }

  /**
   * On a healthy link, draining data chunks answers every chunk with exactly
   * one OK line, in order, and ends with the status the last announcing chunk
   * gave (or the old one when none announced anything).
   */
  lemma {:induction false} DrainHealthy(st: Status, last: int, l: LinkState, now: int)
    requires l.budget.Unlimited? && AllData(l.pending)
    ensures Drain(st, last, l, now) ==
            Drained(ClassifyAll(Texts(l.pending), st), if l.pending == [] then last else now,
                    l.(written := l.written + Outgoing(Acks(|l.pending|)), pending := []), true)
    decreases |l.pending|
  {
    if l.pending != [] {
      var t := l.pending[0].text;
      var l' := l.(pending := l.pending[1..], written := l.written + Frame(Some(Ack)));
      var rest := Drain(Classify(t, st), now, l', now);
      assert Drain(st, last, l, now) == rest by {
        DrainDataStep(st, last, l, now);
      }
      assert ClassifyAll(Texts(l'.pending), Classify(t, st)) == ClassifyAll(Texts(l.pending), st) by {
        TextsStep(l.pending, st);
      }
      assert l'.written + Outgoing(Acks(|l'.pending|)) == l.written + Outgoing(Acks(|l.pending|)) by {
        AcksStep(|l.pending|);
      }
      DrainHealthy(Classify(t, st), now, l', now);
    } else {
      assert Outgoing(Acks(0)) == [];
    }
  }

  /** Classifying the texts of a run of chunks is classifying the first, then the rest. */
  lemma TextsStep(cs: seq<Chunk>, st: Status)
    requires AllData(cs) && cs != []
    ensures ClassifyAll(Texts(cs), st) == ClassifyAll(Texts(cs[1..]), Classify(cs[0].text, st))
  {
    assert Texts(cs)[0] == cs[0].text && Texts(cs)[1..] == Texts(cs[1..]);
  }

  /** The first of `n` acknowledgements goes out first. */
  lemma AcksStep(n: nat)
    requires n > 0
    ensures Outgoing(Acks(n)) == Frame(Some(Ack)) + Outgoing(Acks(n - 1))
  {
    assert Acks(n)[0] == Some(Ack) && Acks(n)[1..] == Acks(n - 1);
  }

  /** A poll that throws has always forced the status to NO_LINK. */
  lemma {:induction false} DrainFailureIsNoLink(st: Status, last: int, l: LinkState, now: int)
    ensures !Drain(st, last, l, now).ok ==> Drain(st, last, l, now).status == NoLink
    decreases |l.pending|
  {
    if l.pending != [] && l.pending[0].Data? {
      var (l', ok) := SendEffect(l.(pending := l.pending[1..]), Some(Ack));
      if ok {
        DrainFailureIsNoLink(Classify(l.pending[0].text, st), now, l', now);
      }
    }
  }

  /** Any IOException in a poll leaves the engine at NO_LINK with its intent untouched. */
  lemma PollErrorForcesNoLink(k: Conn, now: int)
    ensures PollStep(k, now).1 == LinkError ==>
            PollStep(k, now).0.car.status == NoLink &&
            PollStep(k, now).0.car.(status := k.car.status, lastData := k.car.lastData) == k.car
  {
    DrainFailureIsNoLink(k.car.status, k.car.lastData, k.link, now);
  }

  /** Reset on change: a poll that changes the status ends with neutral intent; one that does not keeps the intent. */
  lemma PollResetsOnChange(k: Conn, now: int)
    requires PollStep(k, now).1.Ok?
    ensures var c := PollStep(k, now).0.car;
            if c.status != k.car.status then c.gear == 2 && c.acc == AccStop && c.dir == DirStraight
            else c.gear == k.car.gear && c.acc == k.car.acc && c.dir == k.car.dir
    ensures PollStep(k, now).1.value == PollStep(k, now).0.car.status
  {
  }

  /**
   * A poll that finds data chunks on a healthy link: one OK per chunk, the
   * last announcing chunk decides the status, and the intent is reset exactly
   * when the status changed.
   */
  lemma PollHealthy(k: Conn, now: int)
    requires k.car.status != NoLink && k.link.pending != []
    requires k.link.budget.Unlimited? && AllData(k.link.pending)
    ensures var s := ClassifyAll(Texts(k.link.pending), k.car.status);
            var c := k.car.(status := s, lastData := now);
            PollStep(k, now) ==
            (Conn(if s != k.car.status then ResetIntent(c) else c,
                  k.link.(written := k.link.written + Outgoing(Acks(|k.link.pending|)), pending := [])),
             Ok(s))
  {
    DrainHealthy(k.car.status, k.car.lastData, k.link, now);
  }

  /** Data chunks, then end of stream: every chunk before it is acknowledged, then the poll throws with NO_LINK. */
  lemma PollEofBreaksLink(k: Conn, now: int, before: seq<Chunk>, after: seq<Chunk>)
    requires k.car.status != NoLink && k.link.budget.Unlimited? && AllData(before)
    requires k.link.pending == before + [Eof] + after
    ensures PollStep(k, now).1 == LinkError
    ensures PollStep(k, now).0.car.status == NoLink
    ensures PollStep(k, now).0.link.written == k.link.written + Outgoing(Acks(|before|))
    ensures PollStep(k, now).0.link.pending == after
  {
    DrainUntilEof(k.car.status, k.car.lastData, k.link, now, before, after);
  }

  lemma {:induction false} DrainUntilEof(st: Status, last: int, l: LinkState, now: int, before: seq<Chunk>, after: seq<Chunk>)
    requires l.budget.Unlimited? && AllData(before)
    requires l.pending == before + [Eof] + after
    ensures var e := Drain(st, last, l, now);
            !e.ok && e.status == NoLink && e.link.pending == after &&
            e.link.written == l.written + Outgoing(Acks(|before|))
    decreases |before|
  {
    if before == [] {
      assert l.pending == [Eof] + after;
      DrainAtEof(st, last, l, now);
    } else {
      assert l.pending[0] == before[0] && l.pending[1..] == before[1..] + [Eof] + after by {
        assert l.pending == [before[0]] + (before[1..] + [Eof] + after);
      }
      var l' := l.(pending := l.pending[1..], written := l.written + Frame(Some(Ack)));
      var st' := Classify(before[0].text, st);
      assert Drain(st, last, l, now) == Drain(st', now, l', now) by {
        DrainDataStep(st, last, l, now);
      }
      assert l'.written + Outgoing(Acks(|before| - 1)) == l.written + Outgoing(Acks(|before|)) by {
        AcksStep(|before|);
      }
      var rest := before[1..];
      assert |rest| == |before| - 1;
      DrainUntilEof(st', now, l', now, rest, after);
      var e := Drain(st', now, l', now);
      assert e.link.written == l'.written + Outgoing(Acks(|before| - 1));
    }
  }

  /** End of stream ends the loop at once: NO_LINK, nothing written, the chunk consumed. */
  lemma DrainAtEof(st: Status, last: int, l: LinkState, now: int)
    requires l.pending != [] && l.pending[0] == Eof
    ensures Drain(st, last, l, now) == Drained(NoLink, now, l.(pending := l.pending[1..]), false)
    ensures l.written + Outgoing(Acks(0)) == l.written
  {
    assert Outgoing(Acks(0)) == [];
  }

  /** Polls keep the intent a valid gear, acceleration and direction. */
  lemma PollKeepsIntentValid(k: Conn, now: int)
    requires k.car.IntentValid()
    ensures PollStep(k, now).0.car.IntentValid()
  {
  }

  // ---------------------------------------------------------------------
  // Setters
  // ---------------------------------------------------------------------

  /** `mSetGear`. */
  function GearStep(k: Conn, g: Byte, now: int): (r: (Conn, Outcome))
    ensures r.1 == Done ==> r.0.car.gear == g
    ensures r.0.car == k.car.(gear := r.0.car.gear, lastData := r.0.car.lastData)
    ensures r.0.link.pending == k.link.pending
  {
    if k.car.gear == g then (k, Done)
    else match GearKey(g)
      case None => (k, BadArgument)
      case Some(p) =>
        var (k', ok) := SendStep(k, Some(p), now);
        if ok then (k'.(car := k'.car.(gear := g)), Done) else (k', IoError)
  }

  /** `mSetAcc`. */
  function AccStep(k: Conn, a: Byte, now: int): (r: (Conn, Outcome))
    ensures r.1 == Done ==> r.0.car.acc == a
    ensures r.0.car == k.car.(acc := r.0.car.acc, lastData := r.0.car.lastData)
    ensures r.0.link.pending == k.link.pending
  {
    if k.car.acc == a then (k, Done)
    else match AccKey(a)
      case None => (k, BadArgument)
      case Some(p) =>
        var (k', ok) := SendStep(k, Some(p), now);
        if ok then (k'.(car := k'.car.(acc := a)), Done) else (k', IoError)
  }

  /** `mSetDir`: release the old key if one is held, then press the new one. */
  function DirStep(k: Conn, d: Byte, now: int): (r: (Conn, Outcome))
    ensures r.1 == Done ==> r.0.car.dir == d
    ensures r.0.car == k.car.(dir := r.0.car.dir, lastData := r.0.car.lastData)
    ensures r.0.link.pending == k.link.pending
  {
    if k.car.dir == d then (k, Done)
    else
      var release := ReleaseKey(k.car.dir);
      var (k1, ok1) := if release.Some? then SendStep(k, release, now) else (k, true);
      if !ok1 then (k1, IoError)
      else if !IsDir(d) then (k1, BadArgument)
      else
        var press := PressKey(d);
        var (k2, ok2) := if press.Some? then SendStep(k1, press, now) else (k1, true);
        if ok2 then (k2.(car := k2.car.(dir := d)), Done) else (k2, IoError)
  }

  /** The lines a gear or acceleration change sends to a healthy link, and the field it sets. */
  lemma GearHealthy(k: Conn, g: Byte, now: int)
    requires k.link.budget.Unlimited? && IsGear(g) && g != k.car.gear
    ensures GearStep(k, g, now) ==
            (Conn(k.car.(gear := g, lastData := now), k.link.(written := k.link.written + Frame(GearKey(g)))), Done)
  {
    SendHealthy(k.link, GearKey(g));
  }

  lemma AccHealthy(k: Conn, a: Byte, now: int)
    requires k.link.budget.Unlimited? && IsAcc(a) && a != k.car.acc
    ensures AccStep(k, a, now) ==
            (Conn(k.car.(acc := a, lastData := now), k.link.(written := k.link.written + Frame(AccKey(a)))), Done)
  {
    SendHealthy(k.link, AccKey(a));
  }

  /** Setting the current value writes nothing; an unknown value writes nothing and is rejected. */
  lemma SettersSuppress(k: Conn, x: Byte, now: int)
    ensures x == k.car.gear ==> GearStep(k, x, now) == (k, Done)
    ensures x != k.car.gear && !IsGear(x) ==> GearStep(k, x, now) == (k, BadArgument)
    ensures x == k.car.acc ==> AccStep(k, x, now) == (k, Done)
    ensures x != k.car.acc && !IsAcc(x) ==> AccStep(k, x, now) == (k, BadArgument)
    ensures x == k.car.dir ==> DirStep(k, x, now) == (k, Done)
  {
  }

  /** Setting a gear twice sends one command: the second call is a no-op. */
  lemma GearIdempotent(k: Conn, g: Byte, now: int, later: int)
    requires GearStep(k, g, now).1 == Done
    ensures GearStep(k, g, now).0.car.gear == g
    ensures GearStep(GearStep(k, g, now).0, g, later) == (GearStep(k, g, now).0, Done)
  {
  }

  lemma AccIdempotent(k: Conn, a: Byte, now: int, later: int)
    requires AccStep(k, a, now).1 == Done
    ensures AccStep(k, a, now).0.car.acc == a
    ensures AccStep(AccStep(k, a, now).0, a, later) == (AccStep(k, a, now).0, Done)
  {
  }

  lemma DirIdempotent(k: Conn, d: Byte, now: int, later: int)
    requires DirStep(k, d, now).1 == Done
    ensures DirStep(k, d, now).0.car.dir == d
    ensures DirStep(DirStep(k, d, now).0, d, later) == (DirStep(k, d, now).0, Done)
  {
  }

  /** The field changes only after the write went through. */
  lemma SettersUpdateOnlyOnSuccess(k: Conn, x: Byte, now: int)
    ensures GearStep(k, x, now).1 != Done ==> GearStep(k, x, now).0.car.gear == k.car.gear
    ensures AccStep(k, x, now).1 != Done ==> AccStep(k, x, now).0.car.acc == k.car.acc
    ensures DirStep(k, x, now).1 != Done ==> DirStep(k, x, now).0.car.dir == k.car.dir
  {
    if k.car.dir != x {
      var release := ReleaseKey(k.car.dir);
      var (k1, ok1) := if release.Some? then SendStep(k, release, now) else (k, true);
      assert k1.car.dir == k.car.dir;
      if ok1 && IsDir(x) {
        var press := PressKey(x);
        var (k2, ok2) := if press.Some? then SendStep(k1, press, now) else (k1, true);
        assert k2.car.dir == k.car.dir;
      }
    }
  }

  /** `payloads` as command lines. */
  function Commands(payloads: seq<string>): (r: seq<Msg>)
    ensures |r| == |payloads| && forall i :: 0 <= i < |r| ==> r[i] == Some(payloads[i])
  {
    seq(|payloads|, i requires 0 <= i < |payloads| => Some(payloads[i]))
  }

  lemma OutgoingOne(a: Msg)
    ensures Outgoing([a]) == Frame(a)
  {
    assert [a][1..] == [];
  }

  lemma OutgoingPair(a: Msg, b: Msg)
    ensures Outgoing([a, b]) == Frame(a) + Frame(b)
  {
    assert [a, b][1..] == [b];
    OutgoingOne(b);
  }

  /** A direction change on a healthy link sends the release of the old key, then the press of the new one. */
  lemma DirHealthy(k: Conn, d: Byte, now: int)
    requires k.link.budget.Unlimited? && k.car.IntentValid() && IsDir(d) && d != k.car.dir
    ensures DirStep(k, d, now).1 == Done
    ensures DirStep(k, d, now).0.car == k.car.(dir := d, lastData := if DirPayloads(k.car.dir, d) == [] then k.car.lastData else now)
    ensures DirStep(k, d, now).0.link ==
            k.link.(written := k.link.written + Outgoing(Commands(DirPayloads(k.car.dir, d))))
  {
    var from := k.car.dir;
    var release, press := ReleaseKey(from), PressKey(d);
    var cs := Commands(DirPayloads(from, d));
    if release.Some? && press.Some? {
      SendHealthy(k.link, release);
      SendHealthy(k.link.(written := k.link.written + Frame(release)), press);
      assert cs == [release, press];
      OutgoingPair(release, press);
    } else if release.Some? {
      SendHealthy(k.link, release);
      assert cs == [release];
      OutgoingOne(release);
    } else {
      SendHealthy(k.link, press);
      assert cs == [press];
      OutgoingOne(press);
    }
  }

  /** An unknown direction releases the key held for the old one, keeps the old direction and is rejected. */
  lemma DirUnknown(k: Conn, d: Byte, now: int)
    requires k.link.budget.Unlimited? && k.car.IntentValid() && !IsDir(d)
    ensures DirStep(k, d, now).1 == BadArgument
    ensures DirStep(k, d, now).0.car.dir == k.car.dir
    ensures DirStep(k, d, now).0.link.written ==
            k.link.written + (if k.car.dir == DirStraight then [] else Frame(ReleaseKey(k.car.dir)))
  {
    SendHealthy(k.link, ReleaseKey(k.car.dir));
  }

  /**
   * Fail fast, no rollback: whatever the link does, a direction change writes
   * a prefix of its intended lines, and it completes exactly when the whole
   * sequence got through.
   */
  lemma DirWritesPrefix(k: Conn, d: Byte, now: int)
    requires k.car.IntentValid() && IsDir(d) && d != k.car.dir
    ensures var all := Outgoing(Commands(DirPayloads(k.car.dir, d)));
            var n := k.link.budget.Allows(|all|);
            DirStep(k, d, now).0.link.written == k.link.written + all[..n] &&
            (DirStep(k, d, now).1 == Done <==> n == |all|)
  {
    var from := k.car.dir;
    var release, press := ReleaseKey(from), PressKey(d);
    var cs := Commands(DirPayloads(from, d));
    var all := Outgoing(cs);
    if release.Some? && press.Some? {
      assert cs == [release, press];
      OutgoingPair(release, press);
      PutAllAppend(k.link, Frame(release), Frame(press));
    } else if release.Some? {
      assert cs == [release];
      OutgoingOne(release);
    } else {
      assert cs == [press];
      OutgoingOne(press);
    }
    PutAllTruncates(k.link, all);
  }

  // ---------------------------------------------------------------------
  // Closing (`mClose`) and the wrappers' error convention
  // ---------------------------------------------------------------------

  /** `mClose`: press and release NO, set NO_LINK, close the socket. */
  function CloseStep(k: Conn, now: int): (r: (Conn, Outcome))
    ensures r.1 == Done ==> r.0.car.status == NoLink && r.0.link.closed
    ensures r.0.car == k.car.(status := r.0.car.status, lastData := r.0.car.lastData)
    ensures r.0.link.pending == k.link.pending
  {
    var (k1, ok1) := SendStep(k, Some(NoPressed), now);
    if !ok1 then (k1, IoError)
    else
      var (k2, ok2) := SendStep(k1, Some(NoReleased), now);
      if !ok2 then (k2, IoError)
      else
        var k3 := k2.(car := k2.car.(status := NoLink));
        if k3.link.closeOk then (k3.(link := k3.link.(closed := true)), Done) else (k3, IoError)
  }

  /** On a healthy link, closing sends NO pressed then NO released, ends at NO_LINK and closes the socket. */
  lemma CloseHealthy(k: Conn, now: int)
    requires k.link.budget.Unlimited? && k.link.closeOk
    ensures CloseStep(k, now) ==
            (Conn(k.car.(status := NoLink, lastData := now),
                  k.link.(written := k.link.written + Frame(Some(NoPressed)) + Frame(Some(NoReleased)), closed := true)),
             Done)
  {
    SendHealthy(k.link, Some(NoPressed));
    SendHealthy(k.link.(written := k.link.written + Frame(Some(NoPressed))), Some(NoReleased));
  }

  /** What a static wrapper returns: a boolean, or the IllegalArgumentException it lets through. */
  datatype Reply = Returned(ok: bool) | IllegalArgument

  /** The wrappers' convention: an IOException becomes `false` with the status forced to NO_LINK. */
  function Guard(step: (Conn, Outcome)): (r: (Conn, Reply))
    ensures r.1 == Returned(true) <==> step.1 == Done
    ensures r.1 == Returned(false) <==> step.1 == IoError
    ensures step.1 == IoError ==> r.0 == step.0.(car := step.0.car.(status := NoLink))
    ensures step.1 != IoError ==> r.0 == step.0
  {
    match step.1
    case Done => (step.0, Returned(true))
    case IoError => (step.0.(car := step.0.car.(status := NoLink)), Returned(false))
    case BadArgument => (step.0, IllegalArgument)
  }

  /** Every engine operation keeps the intent valid. */
  lemma StepsKeepIntentValid(k: Conn, x: Byte, now: int)
    requires k.car.IntentValid()
    ensures GearStep(k, x, now).0.car.IntentValid()
    ensures AccStep(k, x, now).0.car.IntentValid()
    ensures DirStep(k, x, now).0.car.IntentValid()
    ensures CloseStep(k, now).0.car.IntentValid()
  {
  }

  /**
   * The reset scenario: gear 3 is selected, then the car reports that it is
   * ready to drive; the intent is back at gear 2.
   */
  lemma GearResetByStatusChange(k: Conn, now: int, later: int)
    requires k.car.status == Connected && k.car.IntentValid() && k.car.gear != 3
    requires k.link.budget.Unlimited? && k.link.pending == []
    ensures var k1 := GearStep(k, 3, now).0;
            k1.car.gear == 3 &&
            var k2 := Conn(k1.car, k1.link.(pending := [Data("Speed=2")]));
            PollStep(k2, later).1 == Ok(Ready) && PollStep(k2, later).0.car.gear == 2
  {
    GearHealthy(k, 3, now);
    var k1 := GearStep(k, 3, now).0;
    assert k1.car.gear == 3 && k1.car.status == Connected;
    var k2 := Conn(k1.car, k1.link.(pending := [Data("Speed=2")]));
    assert Classify("Speed=2", Connected) == Ready by {
      Found(SpeedToken, SpeedToken, 0);
    }
    var l' := k2.link.(pending := [], written := k2.link.written + Frame(Some(Ack)));
    assert Exchange(Connected, k1.car.lastData, k2.link, later) == Drained(Ready, later, l', true) by {
      DrainDataStep(Connected, k1.car.lastData, k2.link, later);
    }
  }
}
