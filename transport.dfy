/**
 * The byte stream under the protocol engine, abstracted.  The output side is
 * a log with one entry per `write` call; the input side is a queue of chunks,
 * each the result of one `read`.  Write failures are decided by a budget: the
 * next n writes succeed and every later one fails, which can place a broken
 * link at any point of any operation while keeping everything deterministic.
 */
module Transport {
  import opened Base

  /** Carriage return and line feed, the bytes 13 and 10. */
  const CRLF := "\r\n"

  /** One line the engine sends: `Some(payload)` for a command, `None` for the bare keep-alive. */
  type Msg = Option<string>

  /** The `write` calls one line takes: a terminator, then the payload and a terminator if there is one. */
  function Frame(m: Msg): seq<string>
  {
    match m
    case None => [CRLF]
    case Some(d) => [CRLF, d, CRLF]
  }

  /** The bytes a sequence of `write` calls puts on the wire. */
  function Concat(parts: seq<string>): string
    decreases |parts|
  {
    if parts == [] then [] else parts[0] + Concat(parts[1..])
  }

  /** Framing: a command is sent as CRLF, payload, CRLF; the keep-alive as CRLF alone. */
  lemma FrameBytes(m: Msg)
    ensures m.Some? ==> Concat(Frame(m)) == CRLF + m.value + CRLF
    ensures m.None? ==> Concat(Frame(m)) == CRLF
  {
    if m.Some? {
      var f := Frame(m);
      assert f[1..] == [m.value, CRLF] && f[1..][1..] == [CRLF] && f[1..][1..][1..] == [];
      assert Concat([CRLF]) == CRLF + Concat([]);
      assert Concat(f[1..]) == m.value + CRLF;
    } else {
      assert Frame(m)[1..] == [];
    }
  }

  /** The `write` calls of several lines, in order. */
  function Outgoing(msgs: seq<Msg>): seq<string>
    decreases |msgs|
  {
    if msgs == [] then [] else Frame(msgs[0]) + Outgoing(msgs[1..])
  }

  lemma {:induction false} OutgoingAppend(a: seq<Msg>, b: seq<Msg>)
    ensures Outgoing(a + b) == Outgoing(a) + Outgoing(b)
    decreases |a|
  {
    if a == [] {
      assert a + b == b;
    } else {
      assert (a + b)[0] == a[0] && (a + b)[1..] == a[1..] + b;
      OutgoingAppend(a[1..], b);
    }
  }

  /** One read: some bytes of car output, end of stream (`read` returns -1), or an I/O fault. */
  datatype Chunk = Data(text: string) | Eof | Fault

  /** How many further `write` calls succeed. */
  datatype Budget = Unlimited | Limited(n: nat)
  {
    /** How many of the next `k` writes succeed. */
    function Allows(k: nat): (j: nat)
      ensures j <= k
    {
      match this
      case Unlimited => k
      case Limited(n) => if n < k then n else k
    }

    /** The budget left after `j` successful writes. */
    function Spend(j: nat): Budget
    {
      match this
      case Unlimited => Unlimited
      case Limited(n) => Limited(if j <= n then n - j else 0)
    }
  }

  /** Everything about the stream that the engine can observe or change. */
  datatype LinkState = LinkState(
    written: seq<string>,  // every successful `write`, in order
    pending: seq<Chunk>,   // what later `read` calls return
    budget: Budget,
    closeOk: bool,         // whether `close` succeeds
    closed: bool)

  /** One `write` call: appended to the log if the budget allows, otherwise an I/O error. */
  function Put(s: LinkState, line: string): (LinkState, bool)
  {
    if s.budget.Allows(1) == 1 then (s.(written := s.written + [line], budget := s.budget.Spend(1)), true)
    else (s, false)
  }

  /** A series of `write` calls that stops at the first failure; only the log and the budget change. */
  function PutAll(s: LinkState, lines: seq<string>): (r: (LinkState, bool))
    ensures r.0 == s.(written := r.0.written, budget := r.0.budget)
    decreases |lines|
  {
    if lines == [] then (s, true)
    else
      var (s', ok) := Put(s, lines[0]);
      if ok then PutAll(s', lines[1..]) else (s', false)
  }

  /**
   * Stopping at the first failure is the same as writing the longest prefix
   * the budget allows: the log grows by exactly that prefix, and the series
   * succeeds iff the prefix is everything.
   */
  lemma {:induction false} PutAllTruncates(s: LinkState, lines: seq<string>)
    ensures var k := s.budget.Allows(|lines|);
            PutAll(s, lines) == (s.(written := s.written + lines[..k], budget := s.budget.Spend(k)), k == |lines|)
    decreases |lines|
  {
    var k := s.budget.Allows(|lines|);
    if lines == [] {
      assert s.written + lines[..k] == s.written;
      assert s.budget.Spend(0) == s.budget;
    } else if s.budget.Allows(1) == 1 {
      var s' := Put(s, lines[0]).0;
      PutAllTruncates(s', lines[1..]);
      var k' := s'.budget.Allows(|lines[1..]|);
      assert k == k' + 1;
      assert s.written + [lines[0]] + lines[1..][..k'] == s.written + lines[..k];
      assert s'.budget.Spend(k') == s.budget.Spend(k);
    } else {
      assert k == 0;
      assert s.written + lines[..k] == s.written;
    }
  }

  /** Writing `a + b` is writing `a`, then `b` if `a` got through. */
  lemma {:induction false} PutAllAppend(s: LinkState, a: seq<string>, b: seq<string>)
    ensures PutAll(s, a + b) == if PutAll(s, a).1 then PutAll(PutAll(s, a).0, b) else PutAll(s, a)
    decreases |a|
  {
    if a == [] {
      assert a + b == b;
    } else {
      assert (a + b)[0] == a[0] && (a + b)[1..] == a[1..] + b;
      var (s', ok) := Put(s, a[0]);
      if ok {
        PutAllAppend(s', a[1..], b);
      }
    }
  }

  /** What `mSend` does to the stream. */
  function SendEffect(s: LinkState, m: Msg): (LinkState, bool)
  {
    PutAll(s, Frame(m))
  }

  /** `mSend` as the three `write` calls it makes, each one only if the previous one succeeded. */
  lemma SendUnfolded(s: LinkState, m: Msg)
    ensures SendEffect(s, m) ==
            var (s1, ok1) := Put(s, CRLF);
            if !ok1 || m.None? then (s1, ok1)
            else
              var (s2, ok2) := Put(s1, m.value);
              if !ok2 then (s2, false) else Put(s2, CRLF)
  {
    var f := Frame(m);
    var (s1, ok1) := Put(s, CRLF);
    if m.Some? {
      var f1, f2 := [m.value, CRLF], [CRLF];
      assert f[0] == CRLF && f[1..] == f1;
      assert f1[0] == m.value && f1[1..] == f2;
      assert f2[0] == CRLF && f2[1..] == [];
      var (s2, ok2) := Put(s1, m.value);
      assert PutAll(s, f) == if ok1 then PutAll(s1, f1) else (s1, false);
      assert PutAll(s1, f1) == if ok2 then PutAll(s2, f2) else (s2, false);
      var (s3, ok3) := Put(s2, CRLF);
      assert PutAll(s2, f2) == if ok3 then PutAll(s3, []) else (s3, false);
    } else {
      assert f[0] == CRLF && f[1..] == [];
      assert PutAll(s1, f[1..]) == (s1, true);
    }
  }

  /** On a link that does not fail, a line appends exactly its frame and succeeds. */
  lemma SendHealthy(s: LinkState, m: Msg)
    requires s.budget.Unlimited?
    ensures SendEffect(s, m) == (s.(written := s.written + Frame(m)), true)
  {
    PutAllTruncates(s, Frame(m));
    assert Frame(m)[..|Frame(m)|] == Frame(m);
  }

  /** On a link whose budget is spent, a line writes nothing and fails. */
  lemma SendBroken(s: LinkState, m: Msg)
    requires s.budget == Limited(0)
    ensures SendEffect(s, m) == (s, false)
  {
    PutAllTruncates(s, Frame(m));
    assert Frame(m)[..0] == [];
  }

  /** The answer of `available()`: nothing to read, something to read, or an I/O error. */
  datatype Probe = Quiet | HasData | Broken

  function ProbeOf(s: LinkState): (p: Probe)
    ensures p == Quiet <==> s.pending == []
    ensures p == Broken <==> s.pending != [] && s.pending[0].Fault?
  {
    if s.pending == [] then Quiet
    else if s.pending[0].Fault? then Broken
    else HasData
  }

  /** A connected RFCOMM socket with its input and output streams. */
  class Socket {
    var written: seq<string>
    var pending: seq<Chunk>
    var budget: Budget
    var closeOk: bool
    var closed: bool
    const reachable: bool  // whether `connect()` succeeds

    function State(): LinkState
      reads this
    {
      LinkState(written, pending, budget, closeOk, closed)
    }

    constructor (input: seq<Chunk>, budget: Budget, closeOk: bool, reachable: bool)
      ensures State() == LinkState([], input, budget, closeOk, false)
      ensures this.reachable == reachable
    {
      written, pending, this.budget := [], input, budget;
      this.closeOk, closed, this.reachable := closeOk, false, reachable;
    }

    /** `socket.connect()`: fails with an I/O error when the car cannot be reached. */
    method Connect() returns (ok: bool)
      ensures ok == reachable
    {
      ok := reachable;
    }

    /** `os.write(line)`. */
    method Write(line: string) returns (ok: bool)
      modifies this
      ensures (State(), ok) == Put(old(State()), line)
    {
      ok := budget.Allows(1) == 1;
      if ok {
        written := written + [line];
        budget := budget.Spend(1);
      }
    }

    /** `is.available()`. */
    method Available() returns (p: Probe)
      ensures p == ProbeOf(State())
    {
      p := ProbeOf(State());
    }

    /** `is.read(buffer)`, called only after `available()` reported input. */
    method Read() returns (c: Chunk)
      requires pending != []
      modifies this
      ensures c == old(pending[0])
      ensures State() == old(State()).(pending := old(pending[1..]))
    {
      c := pending[0];
      pending := pending[1..];
    }

    /** `socket.close()`. */
    method Close() returns (ok: bool)
      modifies this
      ensures ok == old(closeOk)
      ensures State() == old(State()).(closed := old(closed) || ok)
    {
      ok := closeOk;
      if ok {
        closed := true;
      }
    }
  }
}
