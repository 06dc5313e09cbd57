/** The client's side of one transfer: header parsing and the receive loop. */
module GfClient {
  import opened Wrappers
  import opened CStrings
  import opened Decimal
  import opened Network
  import opened Protocol

  // ---------- the transfer as a function of the pieces received ----------

  /** Starved: `recv` never returns. Crashed: a NULL token is dereferenced or the body length underflows. */
  datatype Outcome = Returned(code: int) | Starved | Crashed

  /** The fields of a request that a transfer sets; `output` is what the write callback got so far. */
  datatype Progress = Progress(status: Status, length: nat, received: nat, output: string)

  datatype Result = Result(outcome: Outcome, progress: Progress, unread: seq<string>)

  /** What the first piece says. */
  datatype Header = Bad | Fault | Absent | Failed | Found(length: nat, offset: nat)

  /** A `long` stored in a `size_t`. */
  function SizeOfLong(n: int): nat
    requires LONG_MIN <= n
  {
    if n < 0 then n + 0x1_0000_0000_0000_0000 else n
  }

  function StatusOf(text: string): Status {
    if text == "OK" then OK
    else if text == "FILE_NOT_FOUND" then FILE_NOT_FOUND
    else if text == "ERROR" then ERROR
    else INVALID
  }

  function ParseLength(text: string, i: nat, n: nat): Header
    requires i <= |text|
  {
    var length := Text(text, NextToken(text, i, " \r\n"));
    if length.None? || |length.value| + 15 > n then Fault
    else Found(SizeOfLong(Atol(length.value)), |length.value| + 15)
  }

  function ParseTokens(text: string, n: nat): (h: Header)
    ensures h.Found? ==> 15 <= h.offset <= n
  {
    var scheme := NextToken(text, 0, " ");
    if scheme.None? then Fault
    else if Text(text, scheme).value != "GETFILE" || n <= 10 then Bad
    else
      var status := NextToken(text, After(text, scheme), " \r\n");
      if status.None? then Fault
      else match StatusOf(Text(text, status).value)
        case FILE_NOT_FOUND => Absent
        case ERROR => Failed
        case OK => ParseLength(text, After(text, status), n)
        case INVALID => Bad
  }

  function ParseHeader(piece: string): (h: Header)
    ensures h.Found? ==> 15 <= h.offset <= |piece|
  {
    if |piece| <= 7 then Bad else ParseTokens(CStr(piece), |piece|)
  }

  /** The loop from its first piece on. */
  function Transfer(r: Progress, pieces: seq<string>, ends: bool): Result {
    if pieces == [] then Stop(r, 0, ends) else Decide(r, ParseHeader(pieces[0]), pieces[0], pieces[1..], ends)
  }

  /** What follows from the header in the first piece. */
  function Decide(r: Progress, h: Header, first: string, rest: seq<string>, ends: bool): Result
    requires h.Found? ==> h.offset <= |first|
  {
    match h
    case Bad => Result(Returned(-1), r.(status := INVALID, received := 0), rest)
    case Fault => Result(Crashed, r, rest)
    case Absent => Result(Returned(0), r.(status := FILE_NOT_FOUND), rest)
    case Failed => Result(Returned(0), r.(status := ERROR), rest)
    case Found(length, offset) => Take(r.(status := OK, length := length), 0, first[offset..], rest, ends)
  }

  /** Writes a stretch of the body and goes on unless that was the last one. */
  function Take(r: Progress, total: nat, body: string, rest: seq<string>, ends: bool): Result
    decreases |rest|, 1
  {
    var r' := r.(output := r.output + body, received := total + |body|);
    if total + |body| == r.length then Result(Returned(0), r', rest) else Body(r', total + |body|, rest, ends)
  }

  /** The loop after the header. */
  function Body(r: Progress, total: nat, pieces: seq<string>, ends: bool): Result
    decreases |pieces|, 0
  {
    if pieces == [] then Stop(r, total, ends) else Take(r, total, pieces[0], pieces[1..], ends)
  }

  /** `recv` has nothing more to give. */
  function Stop(r: Progress, total: nat, ends: bool): Result {
    Result(if !ends then Starved else if total < r.length then Returned(-1) else Returned(0), r, [])
  }

  // ---------- the code ----------

  /** `gfc_get_status`, on the text the header held. */
  method GetStatus(statusText: string) returns (status: Status)
    requires NulFree(statusText)
    ensures status == StatusOf(statusText)
  {
    StrcmpZero(statusText, "OK");
    StrcmpZero(statusText, "FILE_NOT_FOUND");
    StrcmpZero(statusText, "ERROR");
    if Strcmp(statusText, "OK") == 0 {
      status := OK;
    } else if Strcmp(statusText, "FILE_NOT_FOUND") == 0 {
      status := FILE_NOT_FOUND;
    } else if Strcmp(statusText, "ERROR") == 0 {
      status := ERROR;
    } else {
      status := INVALID;
    }
  }

  /** The length token: a scan for the rest of the string, then a fresh scan of that rest. */
  method ReadLength(tok: Tokenizer, n: nat) returns (h: Header)
    requires tok.Valid()
    modifies tok, tok.buf
    ensures h == ParseLength(tok.text, old(tok.save), n)
  {
    var everythingAfterStatus, t0 := tok.Next("");
    if everythingAfterStatus.Some? {
      tok.Restart(everythingAfterStatus.value);
    }
    var filelength, t1 := tok.Next(" \r\n");
    var l := tok.Read(filelength, Text(tok.text, t1));
    if l.None? || |l.value| + 15 > n {
      return Fault;
    }
    return Found(SizeOfLong(Atol(l.value)), |l.value| + 15);
  }

  /** The `strtok` calls on a NUL-terminated copy of the first piece. */
  method ReadTokens(data: array<char>, n: nat, ghost text: string) returns (h: Header)
    requires |text| <= n < data.Length && n > 7 && HoldsAt(data[..], 0, text)
    modifies data
    ensures h == ParseTokens(text, n)
  {
    var tok := new Tokenizer(data, text);
    var scheme, t0 := tok.Next(" ");
    var s := tok.Read(scheme, Text(text, t0));
    if s.None? {
      return Fault;
    }
    if s.value != "GETFILE" || n <= 10 {
      return Bad;
    }
    var status, t1 := tok.Next(" \r\n");
    var w := tok.Read(status, Text(text, t1));
    if w.None? {
      return Fault;
    }
    var what := GetStatus(w.value);
    match what {
      case FILE_NOT_FOUND => return Absent;
      case ERROR => return Failed;
      case INVALID => return Bad;
      case OK =>
    }
    h := ReadLength(tok, n);
  }

  /** The tokens of the first piece, taken in a NUL-terminated copy of it. */
  method ReadHeader(buffer: array<char>, n: nat) returns (h: Header)
    requires n <= buffer.Length
    ensures h == ParseHeader(buffer[..n])
  {
    if n <= 7 {
      return Bad;
    }
    ghost var piece := buffer[..n];
    var data := new char[n + 1](i requires 0 <= i <= n reads buffer => if i < n then buffer[i] else NUL);
    assert data[n] == NUL && data[..n] == piece;
    var text := StringAt(data, 0);
    assert data[0..] == piece + [NUL] + "";
    CStrStops(piece, "");
    assert text == CStr(piece);
    h := ReadTokens(data, n, text);
  }

  class GfcRequest {
    var path: string
    var status: Status
    var filelength: nat
    var bytesOfFileReceived: nat
    var output: string

    ghost function State(): Progress
      reads this
    {
      Progress(status, filelength, bytesOfFileReceived, output)
    }

    constructor (p: string, uninitialised: nat)
      ensures path == p && output == "" && filelength == uninitialised
    {
      path, filelength, output := p, uninitialised, "";
    }

    /** The write callback. */
    method Writer(data: string)
      modifies this`output
      ensures output == old(output) + data
    {
      output := output + data;
    }

    /** The first piece: either the transfer is decided, or its part of the body is written. */
    method First(h: Header, buffer: array<char>, n: nat, ghost rest: seq<string>, ghost ends: bool)
        returns (stop: Option<Outcome>, taken: nat)
      requires n <= buffer.Length && (h.Found? ==> h.offset <= n)
      modifies this`status, this`filelength, this`bytesOfFileReceived, this`output
      ensures Decide(old(State()), h, buffer[..n], rest, ends)
        == if stop.Some? then Result(stop.value, State(), rest) else Body(State(), taken, rest, ends)
    {
      stop, taken := None, 0;
      match h {
        case Fault =>
          stop := Some(Crashed);
        case Bad =>
          status, bytesOfFileReceived := INVALID, 0;
          stop := Some(Returned(-1));
        case Absent =>
          status := FILE_NOT_FOUND;
          stop := Some(Returned(0));
        case Failed =>
          status := ERROR;
          stop := Some(Returned(0));
        case Found(length, offset) =>
          status, filelength, taken := OK, length, n - offset;
          assert buffer[offset..n] == buffer[..n][offset..];
          Writer(buffer[offset..n]);
          bytesOfFileReceived := taken;
          if taken == filelength {
            stop := Some(Returned(0));
          }
      }
    }

    /** A later piece: it is written, and the transfer ends if the whole body is there. */
    method Later(buffer: array<char>, n: nat, total: nat, ghost rest: seq<string>, ghost ends: bool)
        returns (stop: Option<Outcome>, taken: nat)
      requires n <= buffer.Length
      modifies this`bytesOfFileReceived, this`output
      ensures Take(old(State()), total, buffer[..n], rest, ends)
        == if stop.Some? then Result(stop.value, State(), rest) else Body(State(), taken, rest, ends)
    {
      Writer(buffer[..n]);
      stop, taken := None, total + n;
      bytesOfFileReceived := taken;
      if taken == filelength {
        stop := Some(Returned(0));
      }
    }

    /** The receive loop: after the header each piece is written as it comes. */
    method Receive(conn: Socket) returns (outcome: Outcome)
      requires Segmented(conn.incoming)
      modifies this`status, this`filelength, this`bytesOfFileReceived, this`output, conn`incoming
      ensures Transfer(old(State()), old(conn.incoming), conn.peerClosed) == Result(outcome, State(), conn.incoming)
    {
      var buffer := new char[BUFSIZE];
      var total: nat := 0;
      var headerComplete := false;
      ghost var whole, ends := Transfer(State(), conn.incoming, conn.peerClosed), conn.peerClosed;
      while true
        invariant Segmented(conn.incoming)
        invariant headerComplete ==> whole == Body(State(), total, conn.incoming, ends)
        invariant !headerComplete ==> whole == Transfer(State(), conn.incoming, ends) && total == 0
        decreases |conn.incoming|
      {
        ghost var pieces := conn.incoming;
        var n := conn.Recv(buffer);
        if n.None? {
          return Starved;
        }
        if n.value == 0 {
          return Returned(if total < filelength then -1 else 0);
        }
        assert buffer[..n.value] == pieces[0];
        var stop: Option<Outcome>;
        if !headerComplete {
          var h := ReadHeader(buffer, n.value);
          stop, total := First(h, buffer, n.value, conn.incoming, ends);
          headerComplete := true;
        } else {
          assert whole == Take(State(), total, pieces[0], conn.incoming, ends);
          stop, total := Later(buffer, n.value, total, conn.incoming, ends);
        }
        if stop.Some? {
          return stop.value;
        }
      }
    }

    /** `gfc_perform`: sends the request, then receives until the transfer is decided. */
    method Perform(conn: Socket) returns (outcome: Outcome)
      requires Segmented(conn.incoming)
      modifies this`status, this`filelength, this`bytesOfFileReceived, this`output, conn`incoming, conn`sent
      ensures Transfer(old(State()), old(conn.incoming), conn.peerClosed) == Result(outcome, State(), conn.incoming)
      ensures conn.sent == old(conn.sent) + (if conn.closed then "" else Request(path))
    {
      var w := conn.WriteHeader(Request(path));
      outcome := Receive(conn);
    }
  }
}
