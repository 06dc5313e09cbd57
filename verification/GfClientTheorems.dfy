/** What the client makes of the server's replies, however TCP splits them. */
module GfClientTheorems {
  import opened Wrappers
  import opened CStrings
  import opened Decimal
  import opened Network
  import opened Protocol
  import opened GfClient

  // ---------- the header in the first piece ----------

  /** An OK reply: header and body. */
  function Response(n: nat, body: string): string { OkHeader(n) + body }

  /** Where the body starts. */
  function BodyOffset(n: nat): nat { 15 + |Print(n)| }

  lemma ResponseShape(n: nat, body: string)
    ensures var s, d := Response(n, body), |Print(n)|;
      && |OkHeader(n)| == 15 + d && |s| == 15 + d + |body| && s[15 + d..] == body
      && s[..7] == "GETFILE" && s[7] == ' ' && s[8..10] == "OK" && s[10] == ' '
      && s[11..11 + d] == Print(n) && s[11 + d] == '\r' && NulFree(s[..15 + d])
    ensures forall i :: 0 <= i < 7 ==> Response(n, body)[i] !in " "
    ensures forall i :: 8 <= i < 10 || 11 <= i < 11 + |Print(n)| ==> Response(n, body)[i] !in " \r\n"
  {
    var s, p := Response(n, body), Print(n);
    var d := |p|;
    assert s == "GETFILE OK " + p + "\r\n\r\n" + body;
    assert s[11..11 + d] == p;
    forall i | 11 <= i < 11 + d
      ensures s[i] == p[i - 11]
    {
      assert s[i] == s[11..11 + d][i - 11];
    }
    assert s[..7] == "GETFILE" && s[8..10] == "OK";
    assert s[15 + d..] == body;
  }

  /** The C string of a piece agrees with it up to any NUL-free length. */
  lemma CStrReaches(s: string, k: nat)
    requires k <= |s| && NulFree(s[..k])
    ensures k <= |CStr(s)| && forall i :: 0 <= i < k ==> CStr(s)[i] == s[i]
  {
    assert forall i :: 0 <= i < k ==> s[i] == s[..k][i];
  }

  function Min(a: int, b: int): int { if a < b then a else b }

  /** What the client scans of the first `h` bytes of a stream whose first `k` bytes are free of NUL. */
  ghost predicate ReadsAs(text: string, s: string, h: nat, k: nat) {
    Min(h, k) <= |text| <= h <= |s| && forall i :: 0 <= i < Min(h, k) ==> text[i] == s[i]
  }

  lemma PieceReadsAs(s: string, h: nat, k: nat)
    requires h <= |s| && k <= |s| && NulFree(s[..k])
    ensures ReadsAs(CStr(s[..h]), s, h, k)
  {
    assert s[..h][..Min(h, k)] == s[..k][..Min(h, k)];
    CStrReaches(s[..h], Min(h, k));
  }

  /** The tokens of the first `h` bytes of an OK reply. */
  lemma HeaderTokens(n: nat, body: string, h: nat, text: string)
    requires 10 < h && ReadsAs(text, Response(n, body), h, BodyOffset(n))
    ensures NextToken(text, 0, " ") == Some(Token(0, 7)) && NextToken(text, 8, " \r\n") == Some(Token(8, 10))
    ensures NextToken(text, 11, " \r\n") == if h == 11 then None else Some(Token(11, Min(h, 11 + |Print(n)|)))
  {
    ResponseShape(n, body);
    TokenIs(text, 0, 7, " ");
    TokenIs(text, 8, 10, " \r\n");
    if h > 11 {
      TokenIs(text, 11, Min(h, 11 + |Print(n)|), " \r\n");
    }
  }

  /** A slice of a string that agrees with another one. */
  lemma SameSlice(text: string, s: string, i: nat, j: nat)
    requires i <= j <= |text| && j <= |s| && forall k :: i <= k < j ==> text[k] == s[k]
    ensures text[i..j] == s[i..j]
  {
  }

  lemma SliceOfSlice(s: string, i: nat, j: nat, k: nat)
    requires i + k <= j <= |s|
    ensures s[i..i + k] == s[i..j][..k]
  {
  }

  /** The words those tokens spell; the length may be cut. */
  lemma HeaderWords(n: nat, body: string, h: nat, text: string)
    requires 10 < h && ReadsAs(text, Response(n, body), h, BodyOffset(n))
    ensures text[..7] == "GETFILE" && text[8..10] == "OK"
    ensures var k := Min(h - 11, |Print(n)|); text[11..11 + k] == Print(n)[..k]
  {
    ResponseShape(n, body);
    var s, d := Response(n, body), |Print(n)|;
    SameSlice(text, s, 0, 7);
    SameSlice(text, s, 8, 10);
    var k := Min(h - 11, d);
    SameSlice(text, s, 11, 11 + k);
    SliceOfSlice(s, 11, 11 + d, k);
  }

  /** The header the client makes of them. */
  lemma HeaderOf(n: nat, body: string, h: nat, text: string)
    requires 10 < h && ReadsAs(text, Response(n, body), h, BodyOffset(n))
    ensures ParseTokens(text, h)
      == if h < BodyOffset(n) then Fault else Found(SizeOfLong(Atol(Print(n))), BodyOffset(n))
  {
    HeaderTokens(n, body, h, text);
    HeaderWords(n, body, h, text);
    assert Print(n)[..|Print(n)|] == Print(n);
  }

  /** Up to ten bytes are never enough. */
  lemma ShortPiece(piece: string)
    requires piece != [] && piece[0] == 'G' && |piece| <= 10
    ensures ParseHeader(piece) == Bad
  {
    assert CStr(piece)[0] == 'G';
    assert Skip(CStr(piece), 0, " ") == 0;
  }

  /**
   * The client takes the length and the body offset from the first piece exactly when that piece covers the
   * header; a shorter one makes it give up or crash.
   */
  lemma HeaderRoundTrip(n: nat, body: string, h: nat)
    requires h <= |Response(n, body)|
    ensures ParseHeader(Response(n, body)[..h]) ==
      if h <= 10 then Bad
      else if h < BodyOffset(n) then Fault
      else Found(SizeOfLong(Atol(Print(n))), BodyOffset(n))
  {
    ResponseShape(n, body);
    var s := Response(n, body);
    if h > 10 {
      PieceReadsAs(s, h, BodyOffset(n));
      HeaderOf(n, body, h, CStr(s[..h]));
    } else if h > 0 {
      assert s[0] == s[..7][0];
      ShortPiece(s[..h]);
    }
  }

  // ---------- the whole reply ----------

  lemma FirstPiece(pieces: seq<string>)
    requires pieces != []
    ensures |pieces[0]| <= |Flatten(pieces)| && pieces[0] == Flatten(pieces)[..|pieces[0]|]
    ensures Flatten(pieces[1..]) == Flatten(pieces)[|pieces[0]|..]
  {
  }

  lemma NothingLeft(pieces: seq<string>)
    requires Segmented(pieces) && Flatten(pieces) == ""
    ensures pieces == []
  {
    if pieces != [] {
      FirstPiece(pieces);
    }
  }

  /** How a transfer that is still waiting for the body ends. */
  function Verdict(received: nat, length: nat, ends: bool): Outcome {
    if received == length then Returned(0) else if ends then Returned(-1) else Starved
  }

  /** After the header, the output grows by the rest of the stream, however it is split. */
  lemma {:induction false} BodyArrives(r: Progress, pieces: seq<string>, ends: bool)
    requires Segmented(pieces) && r.received < r.length
    requires r.received + |Flatten(pieces)| <= r.length
    ensures var got := r.received + |Flatten(pieces)|;
      Body(r, r.received, pieces, ends)
        == Result(Verdict(got, r.length, ends), r.(output := r.output + Flatten(pieces), received := got), [])
    decreases |pieces|
  {
    if pieces == [] {
      assert r.output + "" == r.output;
    } else {
      FirstPiece(pieces);
      var piece, rest := pieces[0], pieces[1..];
      var r' := r.(output := r.output + piece, received := r.received + |piece|);
      if r'.received == r.length {
        NothingLeft(rest);
        assert Flatten(pieces) == piece;
      } else {
        BodyArrives(r', rest, ends);
        assert r'.output + Flatten(rest) == r.output + Flatten(pieces);
      }
    }
  }

  // ---------- bodies of the wrong length ----------

  /** How much of the body there is after `k` more pieces. */
  function Got(total: nat, pieces: seq<string>, k: nat): nat
    requires k <= |pieces|
  {
    total + |Flatten(pieces[..k])|
  }

  lemma FlattenFront(pieces: seq<string>, k: nat)
    requires 1 <= k <= |pieces|
    ensures Flatten(pieces[..k]) == pieces[0] + Flatten(pieces[1..][..k - 1])
  {
    assert pieces[..k][1..] == pieces[1..][..k - 1];
  }

  /** Pieces none of which completes the body are written one after the other. */
  lemma {:induction false} BodyGoesOn(r: Progress, total: nat, pieces: seq<string>, k: nat, ends: bool)
    requires r.received == total && k <= |pieces|
    requires forall i :: 1 <= i <= k ==> Got(total, pieces, i) != r.length
    ensures Body(r, total, pieces, ends)
      == Body(r.(output := r.output + Flatten(pieces[..k]), received := Got(total, pieces, k)),
        Got(total, pieces, k), pieces[k..], ends)
    decreases k
  {
    if k == 0 {
      assert r.output + "" == r.output && pieces[0..] == pieces;
    } else {
      var piece, rest := pieces[0], pieces[1..];
      var total' := total + |piece|;
      FlattenFront(pieces, 1);
      forall i | 1 <= i <= k - 1
        ensures Got(total', rest, i) != r.length
      {
        FlattenFront(pieces, i + 1);
        assert Got(total, pieces, i + 1) != r.length;
      }
      assert Got(total, pieces, 1) == total';
      var r' := r.(output := r.output + piece, received := total');
      BodyGoesOn(r', total', rest, k - 1, ends);
      FlattenFront(pieces, k);
      assert r'.output + Flatten(rest[..k - 1]) == r.output + Flatten(pieces[..k]);
      assert rest[k - 1..] == pieces[k..];
    }
  }

  /** The client stops with the piece that completes the body exactly; what follows stays unread. */
  lemma BodyStops(r: Progress, total: nat, pieces: seq<string>, k: nat, ends: bool)
    requires r.received == total && 1 <= k <= |pieces| && Got(total, pieces, k) == r.length
    requires forall i :: 1 <= i < k ==> Got(total, pieces, i) != r.length
    ensures Body(r, total, pieces, ends)
      == Result(Returned(0), r.(output := r.output + Flatten(pieces[..k]), received := r.length), pieces[k..])
  {
    BodyGoesOn(r, total, pieces, k - 1, ends);
    FlattenBack(pieces, k);
    var before := Flatten(pieces[..k - 1]);
    assert (r.output + before) + pieces[k - 1] == r.output + (before + pieces[k - 1]);
    assert pieces[k - 1..][1..] == pieces[k..];
  }

  lemma {:induction false} FlattenBack(pieces: seq<string>, k: nat)
    requires 1 <= k <= |pieces|
    ensures Flatten(pieces[..k]) == Flatten(pieces[..k - 1]) + pieces[k - 1]
    decreases k
  {
    FlattenFront(pieces, k);
    if k == 1 {
      assert pieces[..0] == [] && pieces[1..][..0] == [];
    } else {
      FlattenBack(pieces[1..], k - 1);
      FlattenFront(pieces, k - 1);
    }
  }

  /**
   * When no piece completes the body exactly, the client reads and writes all there is, and takes more than was
   * announced for a success.
   */
  lemma BodyMisses(r: Progress, total: nat, pieces: seq<string>, ends: bool)
    requires r.received == total
    requires forall i :: 1 <= i <= |pieces| ==> Got(total, pieces, i) != r.length
    ensures var got := total + |Flatten(pieces)|;
      Body(r, total, pieces, ends) == Result(
        if !ends then Starved else if got < r.length then Returned(-1) else Returned(0),
        r.(output := r.output + Flatten(pieces), received := got), [])
  {
    BodyGoesOn(r, total, pieces, |pieces|, ends);
    assert pieces[..|pieces|] == pieces && pieces[|pieces|..] == [];
  }

  // ---------- bodies of at most the right length ----------

  /**
   * Any length up to LONG_MAX, any body of at most that length, any segmentation: the transfer succeeds if and
   * only if the first piece covers the header and the whole body arrives. With the header covered the
   * output is exactly the body that arrived and a missing rest is reported; without, nothing is written, and the
   * transfer is rejected up to ten bytes and crashes the client behind them.
   */
  lemma ResponseArrives(n: nat, body: string, pieces: seq<string>, ends: bool, r: Progress)
    requires |body| <= n <= LONG_MAX
    requires Segmented(pieces) && pieces != [] && Flatten(pieces) == Response(n, body)
    ensures var t := Transfer(r, pieces, ends);
      && (t.outcome == Returned(0) <==> |pieces[0]| >= BodyOffset(n) && |body| == n)
      && (|pieces[0]| >= BodyOffset(n) ==>
        t == Result(Verdict(|body|, n, ends), Progress(OK, n, |body|, r.output + body), []))
      && (10 < |pieces[0]| < BodyOffset(n) ==> t == Result(Crashed, r, pieces[1..]))
      && (|pieces[0]| <= 10 ==> t == Result(Returned(-1), r.(status := INVALID, received := 0), pieces[1..]))
  {
    FirstPiece(pieces);
    var h := |pieces[0]|;
    HeaderRoundTrip(n, body, h);
    AtolPrint(n);
    if h >= BodyOffset(n) {
      CoveredResponse(n, body, pieces[0], pieces[1..], ends, r);
    }
  }

  lemma BodySplits(n: nat, body: string, first: string, rest: string)
    requires first + rest == Response(n, body) && |first| >= BodyOffset(n)
    ensures body == first[BodyOffset(n)..] + rest
  {
    ResponseShape(n, body);
    assert body == (first + rest)[BodyOffset(n)..];
  }

  /** The case where the first piece covers the header. */
  lemma CoveredResponse(n: nat, body: string, first: string, rest: seq<string>, ends: bool, r: Progress)
    requires |body| <= n && Segmented(rest) && first + Flatten(rest) == Response(n, body) && |first| >= BodyOffset(n)
    ensures Decide(r, Found(n, BodyOffset(n)), first, rest, ends)
      == Result(Verdict(|body|, n, ends), Progress(OK, n, |body|, r.output + body), [])
  {
    BodySplits(n, body, first, Flatten(rest));
    var part := first[BodyOffset(n)..];
    var r' := Progress(OK, n, |part|, r.output + part);
    if |part| == n {
      NothingLeft(rest);
      assert part + "" == part;
    } else {
      BodyArrives(r', rest, ends);
      assert r'.output + Flatten(rest) == r.output + (part + Flatten(rest));
    }
  }

  // ---------- the replies without a body ----------

  /** The form of the two short replies. */
  function StatusReply(word: string): string { "GETFILE " + word + " \r\n\r\n\0" }

  ghost predicate CleanWord(word: string) {
    word != "" && NulFree(word) && forall i :: 0 <= i < |word| ==> word[i] !in " \r\n"
  }

  lemma StatusShape(word: string)
    requires CleanWord(word)
    ensures var s, e := StatusReply(word), 8 + |word|;
      && |s| == e + 6 && s[..7] == "GETFILE" && s[7] == ' ' && s[8..e] == word && s[e] == ' ' && NulFree(s[..e + 1])
    ensures forall i :: 0 <= i < 7 ==> StatusReply(word)[i] !in " "
    ensures forall i :: 8 <= i < 8 + |word| ==> StatusReply(word)[i] !in " \r\n"
  {
    var s, e := StatusReply(word), 8 + |word|;
    assert s[..7] == "GETFILE" && s[8..e] == word;
    forall i | 8 <= i < e
      ensures s[i] == word[i - 8]
    {
      assert s[i] == s[8..e][i - 8];
    }
  }

  /** What the client makes of the first `h` bytes of a short reply. */
  lemma StatusTokens(word: string, h: nat, text: string)
    requires CleanWord(word) && 10 < h && ReadsAs(text, StatusReply(word), h, 9 + |word|)
    ensures NextToken(text, 0, " ") == Some(Token(0, 7)) && text[..7] == "GETFILE"
    ensures var k := Min(h, 8 + |word|);
      NextToken(text, 8, " \r\n") == Some(Token(8, k)) && text[8..k] == word[..k - 8]
  {
    StatusShape(word);
    var s, e := StatusReply(word), 8 + |word|;
    var k := Min(h, e);
    TokenIs(text, 0, 7, " ");
    TokenIs(text, 8, k, " \r\n");
    SameSlice(text, s, 0, 7);
    SameSlice(text, s, 8, k);
    SliceOfSlice(s, 8, e, k - 8);
  }

  /** The client recognises a status word exactly when the piece holds all of it. */
  lemma StatusOfText(word: string, h: nat, text: string)
    requires CleanWord(word) && 10 < h && ReadsAs(text, StatusReply(word), h, 9 + |word|)
    requires word in {"FILE_NOT_FOUND", "ERROR"}
    ensures ParseTokens(text, h)
      == if h < 8 + |word| then Bad else if StatusOf(word).ERROR? then Failed else Absent
  {
    StatusTokens(word, h, text);
    var k := Min(h, 8 + |word|) - 8;
    StatusOfPart(word, k);
  }

  lemma StatusOfPart(word: string, k: nat)
    requires word in {"FILE_NOT_FOUND", "ERROR"} && 3 <= k <= |word|
    ensures StatusOf(word[..k]) == if k < |word| then INVALID else StatusOf(word)
  {
    assert word[..k][0] == word[0];
    if k == |word| {
      assert word[..k] == word;
    }
  }

  lemma StatusWord(word: string, h: nat)
    requires CleanWord(word) && h <= |StatusReply(word)| && word in {"FILE_NOT_FOUND", "ERROR"}
    ensures ParseHeader(StatusReply(word)[..h])
      == if h < 8 + |word| then Bad else if StatusOf(word).ERROR? then Failed else Absent
  {
    StatusShape(word);
    var s := StatusReply(word);
    if h > 10 {
      PieceReadsAs(s, h, 9 + |word|);
      StatusOfText(word, h, CStr(s[..h]));
    } else if h > 0 {
      assert s[0] == s[..7][0];
      ShortPiece(s[..h]);
    }
  }

  /**
   * The client learns of a missing file or an error exactly when the first piece holds the whole status word; what
   * comes after that piece, and whether it comes, does not matter.
   */
  lemma StatusArrives(word: string, pieces: seq<string>, ends: bool, r: Progress)
    requires CleanWord(word) && word in {"FILE_NOT_FOUND", "ERROR"}
    requires Segmented(pieces) && pieces != [] && Flatten(pieces) <= StatusReply(word)
    ensures Transfer(r, pieces, ends) ==
      if |pieces[0]| >= 8 + |word| then Result(Returned(0), r.(status := StatusOf(word)), pieces[1..])
      else Result(Returned(-1), r.(status := INVALID, received := 0), pieces[1..])
  {
    FirstPiece(pieces);
    assert pieces[0] == StatusReply(word)[..|pieces[0]|];
    StatusWord(word, |pieces[0]|);
  }

  /** What the server writes for them. */
  lemma ShortReplies()
    ensures NOT_FOUND_REPLY == StatusReply("FILE_NOT_FOUND") && CleanWord("FILE_NOT_FOUND")
    ensures ERROR_REPLY == StatusReply("ERROR") && CleanWord("ERROR")
    ensures |"FILE_NOT_FOUND"| == 14 && |"ERROR"| == 5
  {
  }

  lemma NotFoundArrives(pieces: seq<string>, ends: bool, r: Progress)
    requires Segmented(pieces) && pieces != [] && Flatten(pieces) <= NOT_FOUND_REPLY
    ensures Transfer(r, pieces, ends) ==
      if |pieces[0]| >= 22 then Result(Returned(0), r.(status := FILE_NOT_FOUND), pieces[1..])
      else Result(Returned(-1), r.(status := INVALID, received := 0), pieces[1..])
  {
    ShortReplies();
    StatusArrives("FILE_NOT_FOUND", pieces, ends, r);
  }

  lemma ErrorArrives(pieces: seq<string>, ends: bool, r: Progress)
    requires Segmented(pieces) && pieces != [] && Flatten(pieces) <= ERROR_REPLY
    ensures Transfer(r, pieces, ends) ==
      if |pieces[0]| >= 13 then Result(Returned(0), r.(status := ERROR), pieces[1..])
      else Result(Returned(-1), r.(status := INVALID, received := 0), pieces[1..])
  {
    ShortReplies();
    StatusArrives("ERROR", pieces, ends, r);
  }
}
