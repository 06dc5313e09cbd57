/** A stream socket as its user sees it: what arrives comes in pieces, what is written goes out in order. */
module Network {
  import opened Wrappers

  const BUFSIZE := 4096

  /** The pieces successive calls of `recv` deliver: never empty, never longer than the buffer. */
  ghost predicate Segmented(pieces: seq<string>) {
    forall i :: 0 <= i < |pieces| ==> 0 < |pieces[i]| <= BUFSIZE
  }

  function Flatten(pieces: seq<string>): (s: string)
  {
    if pieces == [] then "" else pieces[0] + Flatten(pieces[1..])
  }

  class Socket {
    var incoming: seq<string>
    var peerClosed: bool
    var sent: string
    var closed: bool
    /** How many bytes the kernel will take of the i-th chunk written; anything out of range stands for an error. */
    const accepts: nat -> int
    /** How many chunks have been written. */
    var writes: nat

    constructor (pieces: seq<string>, ends: bool, takes: nat -> int)
      ensures incoming == pieces && peerClosed == ends && sent == "" && !closed && accepts == takes && writes == 0
    {
      incoming, peerClosed, sent, closed, accepts, writes := pieces, ends, "", false, takes, 0;
    }

    /** `recv`: the next piece; 0 once the peer has closed; None when the call would wait for ever. */
    method Recv(buf: array<char>) returns (n: Option<nat>)
      requires Segmented(incoming) && buf.Length >= BUFSIZE
      modifies this`incoming, buf
      ensures old(incoming) == [] ==>
        n == (if peerClosed then Some(0) else None) && incoming == [] && buf[..] == old(buf[..])
      ensures old(incoming) != [] ==>
        var piece := old(incoming)[0];
        && n == Some(|piece|) && |piece| <= BUFSIZE && incoming == old(incoming)[1..]
        && buf[..] == piece + old(buf[..])[|piece|..]
      ensures Segmented(incoming)
    {
      if incoming == [] {
        return if peerClosed then Some(0) else None;
      }
      var piece := incoming[0];
      forall i | 0 <= i < |piece| {
        buf[i] := piece[i];
      }
      incoming := incoming[1..];
      n := Some(|piece|);
    }

    /** `write` of a chunk: all of it, a part, or -1. */
    method Write(data: string) returns (w: int)
      requires data != ""
      modifies this`sent, this`writes
      ensures w == if !closed && 0 <= accepts(old(writes)) <= |data| then accepts(old(writes)) else -1
      ensures sent == old(sent) + (if w < 0 then "" else data[..w]) && writes == old(writes) + 1
    {
      w := if closed then -1 else accepts(writes);
      writes := writes + 1;
      if w < 0 || w > |data| {
        w := -1;
      } else {
        sent := sent + data[..w];
      }
    }

    /** `write` of a header, which always fits the socket's buffer. */
    method WriteHeader(data: string) returns (w: int)
      modifies this`sent
      ensures w == (if closed then -1 else |data|)
      ensures sent == old(sent) + (if closed then "" else data)
    {
      if closed {
        return -1;
      }
      sent := sent + data;
      return |data|;
    }

    method Close()
      modifies this`closed
      ensures closed
    {
      closed := true;
    }
  }
}

/** The GETFILE wire format. */
module Protocol {
  import opened Decimal

  datatype Status = OK | FILE_NOT_FOUND | ERROR | INVALID

  function Request(path: string): string { "GETFILE GET " + path + "\r\n\r\n" }

  function OkHeader(length: nat): string { "GETFILE OK " + Print(length) + "\r\n\r\n" }

  /** The two short replies go out with their terminating NUL. */
  const NOT_FOUND_REPLY := "GETFILE FILE_NOT_FOUND \r\n\r\n\0"
  const ERROR_REPLY := "GETFILE ERROR \r\n\r\n\0"

  /** The header a status is announced with; only the OK form carries a length. */
  function Reply(status: Status, length: nat): string {
    match status
    case ERROR => ERROR_REPLY
    case FILE_NOT_FOUND => NOT_FOUND_REPLY
    case _ => OkHeader(length)
  }
}
