/** The file handler, one served connection, and the transfer from end to end. */
module Getfile {
  import opened Wrappers
  import opened CStrings
  import Decimal
  import opened Network
  import opened Protocol
  import opened Content
  import opened GfServer
  import GfClient
  import GfClientTheorems

  const BUFFER_SIZE := 4096

  /** What is behind a descriptor, if anything. */
  function FileOf(disk: int -> string, fd: int): Option<string> {
    if fd < 0 then None else Some(disk(fd))
  }

  // ---------- what the devices do ----------

  /**
   * How many bytes the i-th `pread` delivers, and how many of them the socket takes; anything out of range stands
   * for an error. The socket has been written to `before` times.
   */
  datatype Io = Io(preads: nat -> int, accepts: nat -> int, before: nat)

  /** Where the n-th `pread` starts, if everything before went well. */
  function Offset(io: Io, n: nat): int {
    if n == 0 then 0 else Offset(io, n - 1) + io.preads(n - 1)
  }

  /** The i-th `pread` delivers something, and not more than there is room for or left. */
  predicate Delivers(io: Io, file: string, i: nat) {
    1 <= io.preads(i) <= BUFFER_SIZE && Offset(io, i + 1) <= |file|
  }

  /** And the socket takes all of it. */
  predicate Passes(io: Io, file: string, i: nat) {
    Delivers(io, file, i) && io.accepts(io.before + i) == io.preads(i)
  }

  ghost predicate AllPass(io: Io, file: string, n: nat) {
    forall i :: 0 <= i < n ==> Passes(io, file, i)
  }

  /** Some chunks that all pass are the whole file. */
  ghost predicate Healthy(io: Io, file: string) {
    exists n: nat :: AllPass(io, file, n) && Offset(io, n) == |file|
  }

  /** The k-th chunk is the first that does not pass, and not all of the file was sent before. */
  ghost predicate FailsAt(io: Io, file: string, k: nat) {
    AllPass(io, file, k) && Offset(io, k) < |file| && !Passes(io, file, k)
  }

  /** How much has been sent by then: all earlier chunks, and what the socket took of this one. */
  function SentAtFailure(io: Io, file: string, k: nat): int {
    var taken := io.accepts(io.before + k);
    Offset(io, k) + if Delivers(io, file, k) && 0 <= taken <= io.preads(k) then taken else 0
  }

  lemma {:induction false} OffsetGrows(io: Io, file: string, m: nat, n: nat)
    requires m <= n && AllPass(io, file, n)
    ensures n - m <= Offset(io, n) - Offset(io, m) && (n > 0 ==> Offset(io, n) <= |file|)
    decreases n
  {
    if m < n {
      OffsetGrows(io, file, m, n - 1);
      assert Passes(io, file, n - 1);
    } else if n > 0 {
      assert Passes(io, file, n - 1);
    }
  }

  /** Behind what was sent before, the file has been sent as far as the failing chunk let it. */
  ghost predicate BreaksOff(io: Io, file: string, k: nat, before: string, sent: string) {
    && FailsAt(io, file, k) && 0 <= SentAtFailure(io, file, k) < |file|
    && sent == before + file[..SentAtFailure(io, file, k)]
  }

  /** A transfer that fails somewhere is not healthy. */
  lemma FailureIsFinal(io: Io, file: string, k: nat)
    requires FailsAt(io, file, k)
    ensures !Healthy(io, file) && 0 <= SentAtFailure(io, file, k) < |file|
  {
    forall n: nat | AllPass(io, file, n)
      ensures Offset(io, n) != |file|
    {
      assert n <= k;
      OffsetGrows(io, file, n, k);
    }
    OffsetGrows(io, file, 0, k);
  }

  /** One that fails nowhere gets to the end. */
  lemma {:induction false} Continues(io: Io, file: string, n: nat)
    requires AllPass(io, file, n) && forall k: nat :: !FailsAt(io, file, k)
    ensures Healthy(io, file)
    decreases |file| - n
  {
    OffsetGrows(io, file, 0, n);
    if Offset(io, n) != |file| {
      assert !FailsAt(io, file, n);
      Continues(io, file, n + 1);
    }
  }

  /** Healthy devices are those on which no chunk fails before the file is sent. */
  lemma HealthyIff(io: Io, file: string)
    ensures Healthy(io, file) <==> forall k: nat :: !FailsAt(io, file, k)
  {
    if forall k: nat :: !FailsAt(io, file, k) {
      Continues(io, file, 0);
    } else {
      var k: nat :| FailsAt(io, file, k);
      FailureIsFinal(io, file, k);
    }
  }

  // ---------- the handler ----------

  /** What the handler leaves on the wire, and what it returns, for a file or for none. */
  ghost predicate Served(file: Option<string>, io: Io, sent: string, closed: bool, r: int) {
    match file
    case None => sent == NOT_FOUND_REPLY && closed && r == |NOT_FOUND_REPLY|
    case Some(f) =>
      if Healthy(io, f) then r == |f| && sent == OkHeader(|f|) + f && !closed
      else r == -1 && closed && exists k: nat :: BreaksOff(io, f, k, OkHeader(|f|), sent)
  }

  /** What the chunk loop did, seen from before the header. */
  lemma ServedAfter(file: string, io: Io, start: string, before: string, sent: string, closed: bool, r: int)
    requires before == start + OkHeader(|file|)
    requires if Healthy(io, file) then r == |file| && sent == before + file && !closed
      else r == -1 && closed && exists k: nat :: BreaksOff(io, file, k, before, sent)
    ensures start <= sent && Served(Some(file), io, sent[|start|..], closed, r)
  {
    if Healthy(io, file) {
      assert sent[|start|..] == OkHeader(|file|) + file;
    } else {
      var k: nat :| BreaksOff(io, file, k, before, sent);
      assert sent[|start|..] == OkHeader(|file|) + file[..SentAtFailure(io, file, k)];
      assert BreaksOff(io, file, k, OkHeader(|file|), sent[|start|..]);
    }
  }

  /**
   * `handler_get`: looks the path up, sends the header, then the file chunk by chunk. `preads` says what `pread`
   * will deliver. None: the lookup compared a NULL path.
   */
  method HandlerGet(conn: Socket, content: ContentTable, path: Option<string>, disk: int -> string,
      preads: nat -> int) returns (r: Option<int>, ghost fd: int)
    requires content.Valid() && (path.Some? ==> NulFree(path.value)) && !conn.closed
    modifies conn`sent, conn`closed, conn`writes
    ensures r.None? <==> path.None? && content.table != []
    ensures r.None? ==> conn.sent == old(conn.sent)
    ensures r.Some? ==>
      && (if path.Some? then LooksUp(content.table, path.value, fd) else fd == -1)
      && old(conn.sent) <= conn.sent
      && Served(FileOf(disk, fd), Io(preads, conn.accepts, old(conn.writes)), conn.sent[|old(conn.sent)|..],
        conn.closed, r.value)
  {
    var fildes := content.Get(path);
    if fildes.None? {
      return None, -1;
    }
    fd := fildes.value;
    if fildes.value < 0 {
      var w := SendHeader(conn, FILE_NOT_FOUND, 0);
      return Some(w), fd;
    }
    var file := disk(fildes.value);
    var w := SendHeader(conn, OK, |file|);
    ghost var before := conn.sent;
    var n := SendFile(conn, file, preads);
    ServedAfter(file, Io(preads, conn.accepts, old(conn.writes)), old(conn.sent), before, conn.sent, conn.closed, n);
    return Some(n), fd;
  }

  /**
   * The chunk loop: the whole file and its length if every `pread` up to the end delivers something and every
   * `write` takes all of it; otherwise -1, an aborted connection, and exactly what had passed before the first
   * failure.
   */
  method SendFile(conn: Socket, file: string, preads: nat -> int) returns (r: int)
    requires !conn.closed
    modifies conn`sent, conn`closed, conn`writes
    ensures var io := Io(preads, conn.accepts, old(conn.writes));
      if Healthy(io, file) then r == |file| && conn.sent == old(conn.sent) + file && !conn.closed
      else r == -1 && conn.closed && exists k: nat :: BreaksOff(io, file, k, old(conn.sent), conn.sent)
  {
    ghost var io := Io(preads, conn.accepts, conn.writes);
    var bytesTransferred := 0;
    var i: nat := 0;
    while bytesTransferred < |file|
      invariant 0 <= bytesTransferred <= |file| && !conn.closed
      invariant conn.writes == io.before + i && bytesTransferred == Offset(io, i) && AllPass(io, file, i)
      invariant conn.sent == old(conn.sent) + file[..bytesTransferred]
      decreases |file| - bytesTransferred
    {
      var readLen := preads(i);
      if readLen <= 0 || readLen > BUFFER_SIZE || readLen > |file| - bytesTransferred {
        FailureIsFinal(io, file, i);
        conn.Close();
        assert BreaksOff(io, file, i, old(conn.sent), conn.sent);
        return -1;
      }
      var buffer := file[bytesTransferred..bytesTransferred + readLen];
      var writeLen := conn.Write(buffer);
      if writeLen != readLen {
        FailureIsFinal(io, file, i);
        ghost var k := SentAtFailure(io, file, i);
        assert file[..k] == file[..bytesTransferred] + (if writeLen < 0 then "" else buffer[..writeLen]);
        conn.Close();
        assert BreaksOff(io, file, i, old(conn.sent), conn.sent);
        return -1;
      }
      assert file[..bytesTransferred + readLen] == file[..bytesTransferred] + buffer[..readLen];
      bytesTransferred := bytesTransferred + writeLen;
      i := i + 1;
    }
    assert file[..|file|] == file;
    return bytesTransferred;
  }

  /** What a client of a table sees when the server decided `action`. */
  ghost predicate Replies(action: Action, table: seq<Item>, disk: int -> string, io: Io, sent: string, closed: bool) {
    match action
    case Starve => sent == ""
    case Refuse => sent == NOT_FOUND_REPLY && closed
    case Invoke(None) => table == [] ==> sent == NOT_FOUND_REPLY && closed
    case Invoke(Some(p)) => exists fd, r :: LooksUp(table, p, fd) && Served(FileOf(disk, fd), io, sent, closed, r)
  }

  lemma Answers(path: Option<string>, table: seq<Item>, disk: int -> string, io: Io, sent: string, closed: bool,
      fd: int, r: int)
    requires Served(FileOf(disk, fd), io, sent, closed, r)
    requires if path.Some? then LooksUp(table, path.value, fd) else fd == -1
    ensures Replies(Invoke(path), table, disk, io, sent, closed) && (r < 0 ==> closed)
  {
  }

  /** One round of the accept loop. False: a NULL path was compared and the server is gone. */
  method ServeConnection(server: Server, conn: Socket, content: ContentTable, disk: int -> string,
      preads: nat -> int) returns (alive: bool)
    requires content.Valid() && server.readData.Length == BUFSIZE + 1
    requires Segmented(conn.incoming) && conn.sent == "" && !conn.closed
    modifies server.readData, conn
    ensures Replies(Dispatch(old(conn.incoming), old(conn.peerClosed)), old(content.table), disk,
      Io(preads, conn.accepts, old(conn.writes)), conn.sent, conn.closed)
    ensures !alive ==> Dispatch(old(conn.incoming), old(conn.peerClosed)) == Invoke(None) && conn.sent == ""
  {
    PathIsClean(conn.incoming, conn.peerClosed);
    ghost var io := Io(preads, conn.accepts, conn.writes);
    var action := server.Accept(conn);
    alive := true;
    match action {
      case Starve =>
      case Refuse =>
        var w := SendHeader(conn, FILE_NOT_FOUND, 0);
      case Invoke(path) =>
        var r, fd := HandlerGet(conn, content, path, disk, preads);
        if r.None? {
          return false;
        }
        ghost var sent, closed := conn.sent, conn.closed;
        assert sent[0..] == sent;
        assert Served(FileOf(disk, fd), io, sent[0..], closed, r.value);
        Answers(path, content.table, disk, io, sent, closed, fd, r.value);
        if r.value < 0 {
          var w := SendHeader(conn, ERROR, 0);
          assert conn.sent == sent + "" == sent;
        }
    }
  }

  // ---------- end to end ----------

  /** The first piece of the reply holds as much as the client needs of it. */
  ghost predicate Covers(file: Option<string>, first: nat) {
    match file
    case None => first >= 22
    case Some(f) => first >= GfClientTheorems.BodyOffset(|f|)
  }

  /**
   * What the caller of the client gets when `arrived` bytes of the answer reach it and the connection then ends or
   * not: the part of the file among them, success exactly when that is all of it, a report of the loss when it is
   * not; or that there is no file.
   */
  ghost predicate Delivered(file: Option<string>, arrived: nat, ends: bool, before: GfClient.Progress,
      t: GfClient.Result)
  {
    match file
    case None =>
      t.outcome == GfClient.Returned(0) && t.progress == before.(status := FILE_NOT_FOUND)
    case Some(f) =>
      var k := arrived - GfClientTheorems.BodyOffset(|f|);
      && 0 <= k <= |f|
      && t.progress == GfClient.Progress(OK, |f|, k, before.output + f[..k])
      && t.outcome == GfClientTheorems.Verdict(k, |f|, ends)
  }

  /** Any beginning of what the server puts on the wire for a row with or without a file. */
  lemma ReplyDelivered(file: Option<string>, io: Io, sent: string, closed: bool, n: int, reply: seq<string>,
      ends: bool, before: GfClient.Progress)
    requires Served(file, io, sent, closed, n) && (file.Some? ==> |file.value| <= Decimal.LONG_MAX)
    requires Segmented(reply) && reply != [] && Flatten(reply) <= sent && Covers(file, |reply[0]|)
    ensures Delivered(file, |Flatten(reply)|, ends, before, GfClient.Transfer(before, reply, ends))
  {
    if file.None? {
      GfClientTheorems.NotFoundArrives(reply, ends, before);
    } else {
      var f := file.value;
      var sentBody := |f|;
      if Healthy(io, f) {
        assert f[..sentBody] == f;
      } else {
        var k: nat :| BreaksOff(io, f, k, OkHeader(|f|), sent);
        sentBody := SentAtFailure(io, f, k);
      }
      GfClientTheorems.FirstPiece(reply);
      GfClientTheorems.ResponseShape(|f|, f);
      var k := |Flatten(reply)| - GfClientTheorems.BodyOffset(|f|);
      CutResponse(f, sentBody, Flatten(reply), k);
      GfClientTheorems.ResponseArrives(|f|, f[..k], reply, ends, before);
    }
  }

  /** A beginning of a response that covers the header is a response with a shorter body. */
  lemma CutResponse(f: string, sentBody: nat, arrived: string, k: nat)
    requires sentBody <= |f| && arrived <= OkHeader(|f|) + f[..sentBody]
    requires |arrived| == |OkHeader(|f|)| + k
    ensures k <= sentBody && arrived == GfClientTheorems.Response(|f|, f[..k])
  {
    assert f[..sentBody][..k] == f[..k];
  }

  /**
   * Every table, path and segmentation whose request cut is supported: the server answers for a row of the table
   * with exactly that path as its key, and on healthy devices it sends the whole of what the row's file holds.
   * However much of the answer then reaches the client, once its first piece covers the header the client writes
   * exactly that much of the file, succeeds exactly when it is the whole file, and learns it when no row has the key.
   */
  lemma EndToEnd(p: string, request: seq<string>, requestEnds: bool, table: seq<Item>, disk: int -> string, io: Io,
      sent: string, closed: bool, reply: seq<string>, ends: bool, before: GfClient.Progress)
    requires CleanPath(p) && Segmented(request) && request != [] && Flatten(request) == Request(p)
    requires SupportedCut(p, request)
    requires Replies(Dispatch(request, requestEnds), table, disk, io, sent, closed)
    requires forall fd :: |disk(fd)| <= Decimal.LONG_MAX
    requires Segmented(reply) && reply != [] && Flatten(reply) <= sent
    ensures exists fd ::
      && LooksUp(table, p, fd)
      && (FileOf(disk, fd).Some? && Healthy(io, disk(fd)) ==> sent == OkHeader(|disk(fd)|) + disk(fd) && !closed)
      && (Covers(FileOf(disk, fd), |reply[0]|) ==>
        Delivered(FileOf(disk, fd), |Flatten(reply)|, ends, before, GfClient.Transfer(before, reply, ends)))
  {
    RequestReassembly(p, request, requestEnds);
    var fd, n :| LooksUp(table, p, fd) && Served(FileOf(disk, fd), io, sent, closed, n);
    if Covers(FileOf(disk, fd), |reply[0]|) {
      ReplyDelivered(FileOf(disk, fd), io, sent, closed, n, reply, ends, before);
    }
  }

  /** The client has written the whole file. */
  function WholeFile(before: GfClient.Progress, file: string): GfClient.Progress {
    GfClient.Progress(OK, |file|, |file|, before.output + file)
  }

  /**
   * When the path is listed, the devices are healthy for its file and the whole answer arrives, the client returns
   * 0 and has written exactly the file of a row with that path.
   */
  lemma HealthyEndToEnd(p: string, request: seq<string>, requestEnds: bool, table: seq<Item>, disk: int -> string,
      io: Io, sent: string, closed: bool, reply: seq<string>, ends: bool, before: GfClient.Progress)
    requires CleanPath(p) && Segmented(request) && request != [] && Flatten(request) == Request(p)
    requires SupportedCut(p, request)
    requires Replies(Dispatch(request, requestEnds), table, disk, io, sent, closed)
    requires Segmented(reply) && reply != [] && Flatten(reply) == sent
    requires exists it :: it in table && it.key == p
    requires forall it :: it in table && it.key == p ==>
      && |disk(it.fildes)| <= Decimal.LONG_MAX && Healthy(io, disk(it.fildes))
      && |reply[0]| >= GfClientTheorems.BodyOffset(|disk(it.fildes)|)
    ensures exists it ::
      && it in table && it.key == p
      && GfClient.Transfer(before, reply, ends)
        == GfClient.Result(GfClient.Returned(0), WholeFile(before, disk(it.fildes)), [])
  {
    RequestReassembly(p, request, requestEnds);
    var fd, n :| LooksUp(table, p, fd) && Served(FileOf(disk, fd), io, sent, closed, n);
    var f := disk(fd);
    assert Item(fd, p) in table;
    GfClientTheorems.ResponseArrives(|f|, f, reply, ends, before);
  }
}
