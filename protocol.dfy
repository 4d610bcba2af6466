/**
 * The CAR-100 vocabulary: status values and their byte codes, the byte
 * constants for acceleration and direction, the command literals the phone
 * sends, the tokens the car sends back and how a chunk of car output is
 * classified.  A small model of the car's steering keys serves as an
 * independent reference for the release-before-press rule of direction changes.
 */
module Protocol {
  import opened Base

  // ---------------------------------------------------------------------
  // Statuses
  // ---------------------------------------------------------------------

  datatype Status = NoLink | Connected | Charging | ChargeFull | Ready

  /** The public byte constant `STATUS_*` of each status. */
  function Code(s: Status): (b: Byte)
    ensures 0 <= b <= 4
  {
    match s
    case NoLink => 0
    case Connected => 1
    case Charging => 2
    case ChargeFull => 3
    case Ready => 4
  }

  /** The status a byte stands for, or None for a byte that is no `STATUS_*` constant. */
  function StatusOf(b: Byte): (r: Option<Status>)
    ensures r.Some? <==> 0 <= b <= 4
    ensures r.Some? ==> Code(r.value) == b
  {
    if b == 0 then Some(NoLink)
    else if b == 1 then Some(Connected)
    else if b == 2 then Some(Charging)
    else if b == 3 then Some(ChargeFull)
    else if b == 4 then Some(Ready)
    else None
  }

  lemma CodeRoundTrip(s: Status)
    ensures StatusOf(Code(s)) == Some(s)
  {
  }

  // ---------------------------------------------------------------------
  // Intent values
  // ---------------------------------------------------------------------

  const AccReverse: Byte := -1
  const AccStop: Byte := 0
  const AccForward: Byte := 1

  const DirLeft: Byte := -1
  const DirStraight: Byte := 0
  const DirRight: Byte := 1

  /** The gear, acceleration and direction every reset returns to. */
  const NeutralGear: Byte := 2

  predicate IsGear(g: Byte) { 1 <= g <= 3 }
  predicate IsAcc(a: Byte) { a == AccReverse || a == AccStop || a == AccForward }
  predicate IsDir(d: Byte) { d == DirLeft || d == DirStraight || d == DirRight }

  // ---------------------------------------------------------------------
  // Wire literals
  // ---------------------------------------------------------------------

  const SpeedToken := "Speed=2"
  const ChargingToken := "Charging"
  const ChargeFullToken := "Ready"

  const Ack := "OK"

  const ForwardPressed := "+CKEV: u,1"
  const BackPressed := "+CKEV: d,1"
  const Speed3Pressed := "+CKEV: #,1"
  const Speed2Pressed := "+CKEV: 0,1"
  const Speed1Pressed := "+CKEV: *,1"
  const StopPressed := "+CKEV: :J,1"
  const LeftPressed := "+CKEV: 2,1"
  const LeftReleased := "+CKEV: 2,0"
  const RightPressed := "+CKEV: 3,1"
  const RightReleased := "+CKEV: 3,0"
  const NoPressed := "+CKEV: e,1"
  const NoReleased := "+CKEV: e,0"

  /** The command that selects gear `g`; None for a byte that is no gear. */
  function GearKey(g: Byte): (r: Option<string>)
    ensures r.Some? <==> IsGear(g)
  {
    if g == 1 then Some(Speed1Pressed)
    else if g == 2 then Some(Speed2Pressed)
    else if g == 3 then Some(Speed3Pressed)
    else None
  }

  /** The command that selects acceleration `a`; None for a byte that is no acceleration. */
  function AccKey(a: Byte): (r: Option<string>)
    ensures r.Some? <==> IsAcc(a)
  {
    if a == AccStop then Some(StopPressed)
    else if a == AccForward then Some(ForwardPressed)
    else if a == AccReverse then Some(BackPressed)
    else None
  }

  /** Distinct gears are selected by distinct commands (and likewise accelerations). */
  lemma KeysAreDistinct(x: Byte, y: Byte)
    ensures GearKey(x).Some? && GearKey(x) == GearKey(y) ==> x == y
    ensures AccKey(x).Some? && AccKey(x) == AccKey(y) ==> x == y
  {
  }

  /** The command that releases the steering key held for direction `d`, if one is held. */
  function ReleaseKey(d: Byte): (r: Option<string>)
    ensures r.Some? <==> d == DirLeft || d == DirRight
  {
    if d == DirLeft then Some(LeftReleased)
    else if d == DirRight then Some(RightReleased)
    else None
  }

  /** The command that presses the steering key of direction `d`; straight presses nothing. */
  function PressKey(d: Byte): (r: Option<string>)
    ensures r.Some? <==> d == DirLeft || d == DirRight
  {
    if d == DirLeft then Some(LeftPressed)
    else if d == DirRight then Some(RightPressed)
    else None
  }

  /** An optional command as the list of lines it sends. */
  function Listed(p: Option<string>): seq<string>
  {
    match p
    case None => []
    case Some(x) => [x]
  }

  /** The payloads a change of direction from `from` to a valid `to` sends, in order. */
  function DirPayloads(from: Byte, to: Byte): (r: seq<string>)
    ensures |r| == (if ReleaseKey(from).Some? then 1 else 0) + (if PressKey(to).Some? then 1 else 0)
    ensures ReleaseKey(from).Some? ==> r[0] == ReleaseKey(from).value
    ensures PressKey(to).Some? ==> r[|r| - 1] == PressKey(to).value
  {
    Listed(ReleaseKey(from)) + Listed(PressKey(to))
  }

  // ---------------------------------------------------------------------
  // A reference model of the car's steering keys
  // ---------------------------------------------------------------------

  datatype SteerKey = LeftKey | RightKey

  /** The keys held down while the car steers in direction `d`. */
  function Held(d: Byte): set<SteerKey>
  {
    if d == DirLeft then {LeftKey}
    else if d == DirRight then {RightKey}
    else {}
  }

  /** How the car's held keys change when it receives one payload. */
  function KeyEvent(held: set<SteerKey>, p: string): set<SteerKey>
  {
    if p == LeftPressed then held + {LeftKey}
    else if p == LeftReleased then held - {LeftKey}
    else if p == RightPressed then held + {RightKey}
    else if p == RightReleased then held - {RightKey}
    else held
  }

  function KeysAfter(held: set<SteerKey>, ps: seq<string>): set<SteerKey>
    decreases |ps|
  {
    if ps == [] then held else KeysAfter(KeyEvent(held, ps[0]), ps[1..])
  }

  /**
   * Release before press: starting from the keys held for `from`, the
   * payloads of a direction change leave the car holding exactly the keys of
   * `to`, and never two steering keys at once.
   */
  lemma DirectionKeysFollow(from: Byte, to: Byte)
    requires IsDir(from) && IsDir(to) && from != to
    ensures KeysAfter(Held(from), DirPayloads(from, to)) == Held(to)
    ensures forall k :: 0 <= k <= |DirPayloads(from, to)| ==>
              |KeysAfter(Held(from), DirPayloads(from, to)[..k])| <= 1
  {
    SteeringLiteralsDiffer();
    var ps := DirPayloads(from, to);
    assert ps[..0] == [];
    assert ps[..|ps|] == ps;
    if from == DirStraight {
      assert Held(from) == {};
      assert ps == [PressKey(to).value];
      KeysAfterOne({}, ps[0]);
    } else if to == DirStraight {
      assert ps == [ReleaseKey(from).value];
      KeysAfterOne(Held(from), ps[0]);
    } else if from == DirLeft {
      assert to == DirRight;
      assert ps == [LeftReleased, RightPressed];
      KeysAfterTwo({LeftKey}, LeftReleased, RightPressed);
    } else {
      assert from == DirRight && to == DirLeft;
      assert ps == [RightReleased, LeftPressed];
      KeysAfterTwo({RightKey}, RightReleased, LeftPressed);
    }
  }

  lemma KeysAfterTwo(held: set<SteerKey>, p: string, q: string)
    ensures KeysAfter(held, [p, q][..1]) == KeyEvent(held, p)
    ensures KeysAfter(held, [p, q]) == KeyEvent(KeyEvent(held, p), q)
  {
    assert [p, q][..1] == [p];
    KeysAfterOne(held, p);
    assert [p, q][1..] == [q];
    KeysAfterOne(KeyEvent(held, p), q);
  }

  lemma KeysAfterOne(held: set<SteerKey>, p: string)
    ensures KeysAfter(held, [p]) == KeyEvent(held, p)
  {
    assert [p][1..] == [];
  }

  /** The four steering commands are four different strings. */
  lemma SteeringLiteralsDiffer()
    ensures LeftPressed != LeftReleased && LeftPressed != RightPressed && LeftPressed != RightReleased
    ensures LeftReleased != RightPressed && LeftReleased != RightReleased
    ensures RightPressed != RightReleased
  {
    assert LeftPressed[7] != RightPressed[7] && LeftPressed[7] != RightReleased[7];
    assert LeftReleased[7] != RightPressed[7] && LeftReleased[7] != RightReleased[7];
    assert LeftPressed[9] != LeftReleased[9] && RightPressed[9] != RightReleased[9];
  }

  /** Straight to left, left to right, right to straight, literally. */
  lemma DirectionExamples()
    ensures DirPayloads(DirStraight, DirLeft) == [LeftPressed]
    ensures DirPayloads(DirLeft, DirRight) == [LeftReleased, RightPressed]
    ensures DirPayloads(DirRight, DirStraight) == [RightReleased]
  {
  }

  // ---------------------------------------------------------------------
  // Classifying car output
  // ---------------------------------------------------------------------

  /** `t` occurs in `s` starting at position `j`. */
  predicate OccursAt(s: string, t: string, j: int)
  {
    0 <= j && j + |t| <= |s| && s[j..j + |t|] == t
  }

  /** Java's `s.indexOf(t)`: scan from the left, -1 when the end is reached. */
  function IndexOf(s: string, t: string): (r: int)
    ensures -1 <= r
    decreases |s|
  {
    if |s| < |t| then -1
    else if s[..|t|] == t then 0
    else
      var r := IndexOf(s[1..], t);
      if r == -1 then -1 else r + 1
  }

  /** `indexOf` finds the first position where `t` occurs in `s`, and returns -1 iff `t` occurs nowhere. */
  lemma {:induction false} IndexOfSpec(s: string, t: string)
    ensures var r := IndexOf(s, t);
            r <= |s| &&
            (r >= 0 ==> OccursAt(s, t, r) && forall j :: 0 <= j < r ==> !OccursAt(s, t, j)) &&
            (r == -1 <==> forall j :: !OccursAt(s, t, j))
    decreases |s|
  {
    if |s| < |t| {
    } else if s[..|t|] == t {
      assert OccursAt(s, t, 0) by { assert s[0..|t|] == s[..|t|]; }
    } else {
      IndexOfSpec(s[1..], t);
      assert !OccursAt(s, t, 0) by { assert s[0..|t|] == s[..|t|]; }
      OccursShift(s, t);
    }
  }

  /** An occurrence anywhere makes `indexOf` succeed. */
  lemma Found(s: string, t: string, j: int)
    requires OccursAt(s, t, j)
    ensures Contains(s, t)
  {
    IndexOfSpec(s, t);
  }

  /** Away from position 0, an occurrence in `s` is an occurrence in `s` without its first character, one place earlier. */
  lemma OccursShift(s: string, t: string)
    requires |s| >= 1
    ensures forall j :: j != 0 ==> (OccursAt(s, t, j) <==> OccursAt(s[1..], t, j - 1))
  {
    forall j | j != 0
      ensures OccursAt(s, t, j) <==> OccursAt(s[1..], t, j - 1)
    {
      var i := j - 1;
      if 0 <= i && i + 1 + |t| <= |s| {
        var a, b := s[i + 1..i + 1 + |t|], s[1..][i..i + |t|];
        assert |a| == |b| == |t|;
        forall k | 0 <= k < |t|
          ensures a[k] == b[k]
        {
          assert a[k] == s[i + 1 + k] && b[k] == s[1..][i + k];
        }
        assert a == b;
      }
    }
  }

  predicate Contains(s: string, t: string)
  {
    IndexOf(s, t) != -1
  }

  /** The status a chunk of car output announces, by the fixed priority Speed=2, Charging, Ready. */
  function Token(text: string): (r: Option<Status>)
    ensures r.Some? ==> r.value in {Ready, Charging, ChargeFull}
  {
    if Contains(text, SpeedToken) then Some(Ready)
    else if Contains(text, ChargingToken) then Some(Charging)
    else if Contains(text, ChargeFullToken) then Some(ChargeFull)
    else None
  }

  /**
   * A chunk announces a status iff it holds one of the three tokens; Speed=2
   * beats Charging, and Charging beats Ready, whatever else the chunk holds.
   */
  lemma TokenPriority(text: string)
    ensures Contains(text, SpeedToken) ==> Token(text) == Some(Ready)
    ensures !Contains(text, SpeedToken) && Contains(text, ChargingToken) ==> Token(text) == Some(Charging)
    ensures !Contains(text, SpeedToken) && !Contains(text, ChargingToken) && Contains(text, ChargeFullToken) ==>
              Token(text) == Some(ChargeFull)
    ensures Token(text).Some? <==> Contains(text, SpeedToken) || Contains(text, ChargingToken) || Contains(text, ChargeFullToken)
  {
  }

  /** The status after one chunk: the announced one, or `st` when the chunk announces nothing. */
  function Classify(text: string, st: Status): (r: Status)
    ensures r != st ==> r == Ready || r == Charging || r == ChargeFull
  {
    match Token(text)
    case Some(s) => s
    case None => st
  }

  /** The status after a series of chunks, read front to back. */
  function ClassifyAll(texts: seq<string>, st: Status): (r: Status)
    ensures r != st ==> r == Ready || r == Charging || r == ChargeFull
    decreases |texts|
  {
    if texts == [] then st else ClassifyAll(texts[1..], Classify(texts[0], st))
  }

  /** Chunks that announce nothing leave the status as it was. */
  lemma {:induction false} ClassifyAllSilent(texts: seq<string>, st: Status)
    requires forall i :: 0 <= i < |texts| ==> Token(texts[i]).None?
    ensures ClassifyAll(texts, st) == st
    decreases |texts|
  {
    if texts != [] {
      ClassifyAllSilent(texts[1..], st);
    }
  }

  /** The last chunk that announces a status decides the outcome. */
  lemma {:induction false} ClassifyAllLastWins(texts: seq<string>, st: Status, j: nat)
    requires j < |texts| && Token(texts[j]).Some?
    requires forall i :: j < i < |texts| ==> Token(texts[i]).None?
    ensures ClassifyAll(texts, st) == Token(texts[j]).value
    decreases |texts|
  {
    if j == 0 {
      ClassifyAllSilent(texts[1..], Token(texts[0]).value);
    } else {
      ClassifyAllLastWins(texts[1..], Classify(texts[0], st), j - 1);
    }
  }

  /** Concrete classifications, including the firmware's use of "Ready" for a full charge. */
  lemma ClassifyExamples(st: Status)
    ensures Classify("Speed=2", st) == Ready
    ensures Classify("Charging", st) == Charging
    ensures Classify("Ready", st) == ChargeFull
    ensures Classify("hello", st) == st
  {
    var c, h := "Charging", "hello";
    assert c[..7] != SpeedToken && c[1..][..7] != SpeedToken by {
      assert c[..7][0] == 'C' && c[1..][..7][0] == 'h';
    }
    assert c[1..][1..] == "arging";
    assert h[..5] != ChargeFullToken by {
      assert h[..5][0] == 'h';
    }
    assert h[1..] == "ello";
  }
}
