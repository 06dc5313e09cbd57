/** The server's side of one connection: request parsing with reassembly over two `recv` calls. */
module GfServer {
  import opened Wrappers
  import opened CStrings
  import opened Decimal
  import opened Network
  import opened Protocol

  // ---------- the decision as a function of the pieces received ----------

  /** The three `strtok` results. */
  datatype Line = Line(scheme: Option<string>, request: Option<string>, file: Option<string>)

  /** Refuse: answer FILE_NOT_FOUND. Invoke: call the handler, None being a NULL path. Starve: wait for ever. */
  datatype Action = Refuse | Invoke(path: Option<string>) | Starve

  function Split(text: string): (l: Line)
    ensures l.file.Some? ==> l.request.Some? && l.scheme.Some?
    ensures l.file.Some? ==> |l.scheme.value| + |l.request.value| + |l.file.value| + 2 <= |text|
  {
    var scheme := NextToken(text, 0, " ");
    var request := NextToken(text, After(text, scheme), " ");
    var file := NextToken(text, After(text, request), " \r\n");
    Line(Text(text, scheme), Text(text, request), Text(text, file))
  }

  /** What follows the three tokens if single blanks separate them. */
  function Marker(text: string, l: Line): string
    requires l.file.Some? && l.request.Some? && l.scheme.Some?
    requires |l.scheme.value| + |l.request.value| + |l.file.value| + 2 <= |text|
  {
    text[|l.scheme.value| + |l.request.value| + |l.file.value| + 2..]
  }

  predicate NeedsMore(n: nat, text: string, l: Line)
    requires l == Split(text)
  {
    if l.file.None? then n == 12
    else
      var marker := Marker(text, l);
      (|marker| == 1 && marker != " ") || (|marker| == 4 && marker != "\r\n\r\n")
  }

  predicate Accepted(l: Line) {
    l.scheme == Some("GETFILE") && l.request == Some("GET")
  }

  /** The choice between the three answers; `again` is the path parsed after a second `recv`, if that returns. */
  function Decision(l: Line, needsMore: bool, again: Option<Option<string>>): Action {
    if !Accepted(l) then Refuse
    else if !needsMore then Invoke(l.file)
    else if again.Some? then Invoke(again.value)
    else Starve
  }

  /** The path in the joined buffers. */
  function Again(text: string, pieces: seq<string>, ends: bool): Option<Option<string>> {
    if |pieces| > 1 then Some(Split(text + CStr(pieces[1])).file)
    else if ends then Some(Split(text + "").file)
    else None
  }

  /** What the server does, given the pieces `recv` will deliver and whether the peer then closes. */
  function Dispatch(pieces: seq<string>, ends: bool): Action {
    if pieces == [] then if ends then Refuse else Starve
    else
      var text := CStr(pieces[0]);
      Decision(Split(text), NeedsMore(|pieces[0]|, text, Split(text)), Again(text, pieces, ends))
  }

  /** Free of the bytes the wire format uses as separators. */
  ghost predicate CleanPath(p: string) {
    p != "" && NulFree(p) && forall i :: 0 <= i < |p| ==> p[i] !in " \r\n"
  }

  lemma FileIsClean(text: string)
    requires NulFree(text)
    ensures Split(text).file.Some? ==> CleanPath(Split(text).file.value)
  {
    var scheme := NextToken(text, 0, " ");
    var request := NextToken(text, After(text, scheme), " ");
    var file := NextToken(text, After(text, request), " \r\n");
    if file.Some? {
      TokenIsClean(text, After(text, request), " \r\n");
    }
  }

  /** Whatever path reaches the handler is a non-empty C string without separators. */
  lemma PathIsClean(pieces: seq<string>, ends: bool)
    ensures match Dispatch(pieces, ends) case Invoke(Some(p)) => CleanPath(p) case _ => true
  {
    if pieces != [] {
      FileIsClean(CStr(pieces[0]));
      if |pieces| > 1 {
        FileIsClean(CStr(pieces[0]) + CStr(pieces[1]));
      }
      FileIsClean(CStr(pieces[0]) + "");
    }
  }

  // ---------- the code ----------

  /** `gfs_sendheader`; after the two short replies the connection is aborted. */
  method SendHeader(conn: Socket, status: Status, length: nat) returns (w: int)
    modifies conn`sent, conn`closed
    ensures conn.sent == old(conn.sent) + (if old(conn.closed) then "" else Reply(status, length))
    ensures conn.closed <==> old(conn.closed) || status in {ERROR, FILE_NOT_FOUND}
    ensures w == if old(conn.closed) then -1 else |Reply(status, length)|
  {
    if status == ERROR {
      w := conn.WriteHeader(ERROR_REPLY);
      conn.Close();
    } else if status == FILE_NOT_FOUND {
      w := conn.WriteHeader(NOT_FOUND_REPLY);
      conn.Close();
    } else {
      var header := "GETFILE OK ";
      header := header + Print(length);
      header := header + "\r\n\r\n";
      w := conn.WriteHeader(header);
    }
  }

  /** Three `strtok` calls on a buffer. */
  method SplitBuffer(buf: array<char>, ghost text: string) returns (l: Line)
    requires |text| < buf.Length && NulFree(text) && buf[|text|] == NUL && buf[..|text|] == text
    modifies buf
    ensures l == Split(text)
  {
    var tok := new Tokenizer(buf, text);
    var scheme, t0 := tok.Next(" ");
    var request, t1 := tok.Next(" ");
    var file, t2 := tok.Next(" \r\n");
    var s := tok.Read(scheme, Text(text, t0));
    var r := tok.Read(request, Text(text, t1));
    var f := tok.Read(file, Text(text, t2));
    l := Line(s, r, f);
  }

  /** `strcpy`, `strcat`, and the three `strtok` calls once more. */
  method Reassemble(text: string, more: string) returns (l: Line)
    requires NulFree(text) && NulFree(more)
    ensures l == Split(text + more)
  {
    var joined := text + more;
    var dataread2 := new char[|joined| + 1](i => if 0 <= i < |joined| then joined[i] else NUL);
    assert dataread2[..|joined|] == joined;
    l := SplitBuffer(dataread2, joined);
  }

  class Server {
    const readData: array<char>

    constructor ()
      ensures fresh(readData) && readData.Length == BUFSIZE + 1
    {
      readData := new char[BUFSIZE + 1];
    }

    /** One `recv` into `readData`, read back as a C string. */
    method Receive(conn: Socket) returns (n: Option<nat>, text: string)
      requires Segmented(conn.incoming) && readData.Length == BUFSIZE + 1
      modifies readData, conn`incoming
      ensures Segmented(conn.incoming)
      ensures n.None? <==> old(conn.incoming) == [] && !conn.peerClosed
      ensures n.Some? && old(conn.incoming) == [] ==> n == Some(0) && text == "" && conn.incoming == []
      ensures old(conn.incoming) != [] ==>
        && n == Some(|old(conn.incoming)[0]|) && text == CStr(old(conn.incoming)[0])
        && conn.incoming == old(conn.incoming)[1..]
      ensures n.Some? ==> HoldsAt(readData[..], 0, text)
    {
      ghost var pieces := conn.incoming;
      n := conn.Recv(readData);
      if n.None? {
        return None, "";
      }
      readData[n.value] := NUL;
      text := StringAt(readData, 0);
      ghost var piece := if pieces == [] then "" else pieces[0];
      assert readData[0..] == piece + [NUL] + readData[n.value + 1..];
      CStrStops(piece, readData[n.value + 1..]);
    }

    /** From `accept` to the decision. */
    method Accept(conn: Socket) returns (action: Action)
      requires Segmented(conn.incoming) && readData.Length == BUFSIZE + 1
      modifies readData, conn`incoming
      ensures action == Dispatch(old(conn.incoming), conn.peerClosed)
    {
      var n, text := Receive(conn);
      if n.None? {
        return Starve;
      }
      var line := SplitBuffer(readData, text);
      if line.scheme.None? || line.request.None? {
        return Refuse;
      }
      if line.scheme.value != "GETFILE" || line.request.value != "GET" {
        return Refuse;
      }
      if !NeedsMore(n.value, text, line) {
        return Invoke(line.file);
      }
      var m, more := Receive(conn);
      if m.None? {
        return Starve;
      }
      var again := Reassemble(text, more);
      return Invoke(again.file);
    }
  }

  // ---------- the request survives reassembly ----------

  function Min(a: int, b: int): int { if a < b then a else b }

  /** What a request for `p` looks like. */
  ghost predicate Shape(r: string, p: string) {
    && |r| == 16 + |p| && NulFree(r)
    && r[..7] == "GETFILE" && r[8..11] == "GET" && r[12..12 + |p|] == p && r[12 + |p|..] == "\r\n\r\n"
    && r[7] == ' ' && r[11] == ' ' && r[12 + |p|] == '\r'
    && (forall i :: 0 <= i < 7 || 8 <= i < 11 ==> r[i] !in " ")
    && (forall i :: 12 <= i < 12 + |p| ==> r[i] !in " \r\n")
  }

  lemma RequestShape(p: string)
    requires CleanPath(p)
    ensures Shape(Request(p), p)
  {
    var r := Request(p);
    assert r[12..12 + |p|] == p;
    forall i | 12 <= i < 12 + |p|
      ensures r[i] == p[i - 12]
    {
      assert r[i] == r[12..12 + |p|][i - 12];
    }
  }

  /** Where the tokens of any prefix of a request lie. */
  lemma PrefixTokens(r: string, p: string, k: nat)
    requires Shape(r, p) && CleanPath(p) && k <= |r|
    ensures var t := r[..k];
      var t0 := NextToken(t, 0, " ");
      var t1 := NextToken(t, After(t, t0), " ");
      && t0 == (if k == 0 then None else Some(Token(0, Min(k, 7))))
      && t1 == (if k <= 8 then None else Some(Token(8, Min(k, 11))))
      && NextToken(t, After(t, t1), " \r\n") == (if k <= 12 then None else Some(Token(12, Min(k, 12 + |p|))))
  {
    var t := r[..k];
    if k > 0 {
      TokenIs(t, 0, Min(k, 7), " ");
    }
    if k > 8 {
      TokenIs(t, 8, Min(k, 11), " ");
    }
    if k > 12 {
      TokenIs(t, 12, Min(k, 12 + |p|), " \r\n");
    }
  }

  lemma SliceOfPrefix(r: string, k: nat, a: nat, b: nat)
    requires a <= b <= |r| && a <= k <= |r|
    ensures r[..k][a..Min(k, b)] == r[a..b][..Min(k, b) - a]
  {
  }

  /** The path token of the first `k` bytes of a request. */
  function FileOf(p: string, k: nat): Option<string> {
    if k <= 12 then None else Some(p[..Min(k - 12, |p|)])
  }

  /** The tokens of any prefix of a request. */
  lemma SplitPrefix(r: string, p: string, k: nat)
    requires Shape(r, p) && CleanPath(p) && k <= |r|
    ensures Split(r[..k]) == Line(
      if k == 0 then None else Some("GETFILE"[..Min(k, 7)]),
      if k <= 8 then None else Some("GET"[..Min(k, 11) - 8]),
      FileOf(p, k))
  {
    PrefixTokens(r, p, k);
    SliceOfPrefix(r, k, 0, 7);
    if k > 8 {
      SliceOfPrefix(r, k, 8, 11);
    }
    if k > 12 {
      SliceOfPrefix(r, k, 12, 12 + |p|);
    }
  }

  /** Which first pieces are accepted. */
  lemma AcceptedPrefix(r: string, p: string, j: nat)
    requires Shape(r, p) && CleanPath(p) && j <= |r|
    ensures Accepted(Split(r[..j])) <==> j >= 11
  {
    SplitPrefix(r, p, j);
    assert "GETFILE"[..7] == "GETFILE" && "GET"[..3] == "GET";
  }

  /** What the server compares with the end of the header. */
  lemma MarkerOf(r: string, p: string, j: nat)
    requires Shape(r, p) && CleanPath(p) && 12 < j <= |r|
    ensures var t := r[..j];
      var l := Split(t);
      && l.file.Some? && l.request.Some? && l.scheme.Some?
      && |l.scheme.value| + |l.request.value| + |l.file.value| + 2 <= |t|
      && Marker(t, l) == if j <= 12 + |p| then "" else r[12 + |p|..][..j - 12 - |p|]
  {
    SplitPrefix(r, p, j);
  }

  /** Which first pieces make the server receive again. */
  lemma ShortPrefix(r: string, p: string, j: nat)
    requires Shape(r, p) && CleanPath(p) && j <= |r|
    ensures var t := r[..j]; NeedsMore(j, t, Split(t)) <==> j == 12 || j == 13 + |p|
  {
    if j > 12 {
      MarkerOf(r, p, j);
      var m := j - 12 - |p|;
      assert 0 < m ==> "\r\n\r\n"[..m][0] == '\r';
      assert m == 4 ==> "\r\n\r\n"[..m] == "\r\n\r\n";
    } else {
      SplitPrefix(r, p, j);
    }
  }

  /** The first pieces of the stream `whole`, as `strcpy` and `strcat` see them. */
  ghost predicate Joins(pieces: seq<string>, whole: string) {
    && pieces != [] && |pieces[0]| <= |whole|
    && pieces[0] == whole[..|pieces[0]|] && CStr(pieces[0]) == pieces[0]
    && (|pieces| == 1 ==> |pieces[0]| == |whole|)
    && (|pieces| > 1 ==>
      && 0 < |pieces[1]| && |pieces[0]| + |pieces[1]| <= |whole| && CStr(pieces[1]) == pieces[1]
      && pieces[0] + pieces[1] == whole[..|pieces[0]| + |pieces[1]|])
  }

  lemma PiecesJoin(pieces: seq<string>, whole: string)
    requires Segmented(pieces) && Flatten(pieces) == whole && NulFree(whole) && pieces != []
    ensures Joins(pieces, whole)
  {
    assert whole == pieces[0] + Flatten(pieces[1..]);
    assert forall i :: 0 <= i < |pieces[0]| ==> pieces[0][i] == whole[i];
    CStrOfNulFree(pieces[0]);
    if |pieces| > 1 {
      var rest := pieces[1..];
      assert Flatten(rest) == pieces[1] + Flatten(rest[1..]);
      assert whole == pieces[0] + (pieces[1] + Flatten(rest[1..]));
      assert whole[|pieces[0]|..][..|pieces[1]|] == pieces[1];
      assert forall i :: 0 <= i < |pieces[1]| ==> pieces[1][i] == whole[|pieces[0]| + i];
      CStrOfNulFree(pieces[1]);
    } else {
      assert Flatten(pieces[1..]) == "";
    }
  }

  /** What the first piece alone decides. */
  lemma FirstDecision(r: string, p: string, first: string)
    requires Shape(r, p) && CleanPath(p) && |first| <= |r| && first == r[..|first|]
    ensures var line, j := Split(first), |first|;
      && (Accepted(line) <==> j >= 11) && line.file == FileOf(p, j)
      && (NeedsMore(j, first, line) <==> j == 12 || j == 13 + |p|)
  {
    SplitPrefix(r, p, |first|);
    AcceptedPrefix(r, p, |first|);
    ShortPrefix(r, p, |first|);
  }

  lemma PrefixFile(r: string, p: string, text: string, n: nat)
    requires Shape(r, p) && CleanPath(p) && n <= |r| && text == r[..n]
    ensures Split(text).file == FileOf(p, n)
  {
    SplitPrefix(r, p, n);
  }

  /** The length of the second piece; 0 when there is none. */
  function Second(pieces: seq<string>): nat { if |pieces| > 1 then |pieces[1]| else 0 }

  /** What the second piece adds. */
  lemma AgainOf(r: string, p: string, pieces: seq<string>, ends: bool)
    requires Shape(r, p) && CleanPath(p) && Joins(pieces, r) && |pieces| > 1
    ensures Again(pieces[0], pieces, ends) == Some(FileOf(p, |pieces[0]| + |pieces[1]|))
  {
    PrefixFile(r, p, pieces[0] + pieces[1], |pieces[0]| + |pieces[1]|);
  }

  /** The answer to a request whose first two pieces have these lengths. */
  function Answer(p: string, j: nat, k: nat): Action {
    if j < 11 then Refuse
    else if (j == 12 || j == 13 + |p|) && k > 0 then Invoke(FileOf(p, j + k))
    else Invoke(FileOf(p, j))
  }

  lemma DecisionOf(p: string, line: Line, needsMore: bool, again: Option<Option<string>>, j: nat, k: nat)
    requires (Accepted(line) <==> j >= 11) && line.file == FileOf(p, j) && (k == 0 ==> j == 16 + |p|)
    requires needsMore <==> j == 12 || j == 13 + |p|
    requires k > 0 ==> again == Some(FileOf(p, j + k))
    ensures Decision(line, needsMore, again) == Answer(p, j, k)
  {
  }

  /** The three values the decision on a split request rests on. */
  lemma DispatchParts(r: string, p: string, pieces: seq<string>, ends: bool)
      returns (line: Line, needsMore: bool, again: Option<Option<string>>)
    requires Shape(r, p) && CleanPath(p) && Joins(pieces, r)
    ensures Dispatch(pieces, ends) == Decision(line, needsMore, again)
    ensures (Accepted(line) <==> |pieces[0]| >= 11) && line.file == FileOf(p, |pieces[0]|)
    ensures needsMore <==> |pieces[0]| == 12 || |pieces[0]| == 13 + |p|
    ensures |pieces| > 1 ==> again == Some(FileOf(p, |pieces[0]| + |pieces[1]|))
  {
    var first := pieces[0];
    FirstDecision(r, p, first);
    if |pieces| > 1 {
      AgainOf(r, p, pieces, ends);
    }
    line := Split(first);
    needsMore := NeedsMore(|first|, first, line);
    again := Again(first, pieces, ends);
  }

  /** The decision on a split request. */
  lemma DispatchOf(r: string, p: string, pieces: seq<string>, ends: bool)
    requires Shape(r, p) && CleanPath(p) && Joins(pieces, r)
    ensures Dispatch(pieces, ends) == Answer(p, |pieces[0]|, Second(pieces))
  {
    var line, needsMore, again := DispatchParts(r, p, pieces, ends);
    DecisionOf(p, line, needsMore, again, |pieces[0]|, Second(pieces));
  }

  lemma WholePath(p: string, j: nat, k: nat)
    requires CleanPath(p) && (k == 0 ==> j == 16 + |p|)
    ensures Answer(p, j, k) == Invoke(Some(p)) <==> j >= 12 + |p| || (j == 12 && k >= |p|)
  {
    assert forall n: nat :: n < |p| ==> |p[..n]| != |p|;
    assert p[..|p|] == p;
  }

  /** A request is cut where the server can put it together again. */
  predicate SupportedCut(p: string, pieces: seq<string>)
    requires pieces != []
  {
    |pieces[0]| >= 12 + |p| || (|pieces[0]| == 12 && |pieces| > 1 && |pieces[1]| >= |p|)
  }

  lemma CleanReassembly(p: string, pieces: seq<string>, ends: bool)
    requires CleanPath(p) && Segmented(pieces) && Flatten(pieces) == Request(p) && pieces != []
    ensures Dispatch(pieces, ends) == Invoke(Some(p)) <==> SupportedCut(p, pieces)
  {
    RequestShape(p);
    PiecesJoin(pieces, Request(p));
    DispatchOf(Request(p), p, pieces, ends);
    WholePath(p, |pieces[0]|, Second(pieces));
  }

  /**
   * Any path, any split of the client's request into pieces: the handler gets exactly the path if and only if
   * the path is non-empty and free of blanks, CR, LF and NUL, and the first piece reaches the end of the path, or
   * ends right before the path and the second one holds all of it.
   */
  lemma RequestReassembly(p: string, pieces: seq<string>, ends: bool)
    requires Segmented(pieces) && Flatten(pieces) == Request(p) && pieces != []
    ensures Dispatch(pieces, ends) == Invoke(Some(p)) <==> CleanPath(p) && SupportedCut(p, pieces)
  {
    PathIsClean(pieces, ends);
    if CleanPath(p) {
      CleanReassembly(p, pieces, ends);
    }
  }
}
