/** What the client makes of any first piece, whoever sent it. */
module GfClientHeader {
  import opened Wrappers
  import opened CStrings
  import opened Decimal
  import opened GfClient

  const SEPS := " \r\n"

  /** Blanks up to `i` and the scheme, then a blank or the end. */
  ghost predicate SchemeAt(t: string, i: nat) {
    i + 7 <= |t| && AllIn(t[..i], " ") && t[i..i + 7] == "GETFILE" && (i + 7 < |t| ==> t[i + 7] == ' ')
  }

  /** And separators up to `j`, the status up to `k`, a separator or the end. */
  ghost predicate StatusAt(t: string, i: nat, j: nat, k: nat) {
    && SchemeAt(t, i) && i + 7 < j < k <= |t|
    && AllIn(t[i + 7..j], SEPS) && FreeOf(t[j..k], SEPS) && (k < |t| ==> t[k] in SEPS)
  }

  /** A GETFILE header with that status, and with that number as the first word behind it. */
  ghost predicate HeaderLine(t: string, status: string, number: Option<string>) {
    exists i: nat, j: nat, k: nat :: StatusAt(t, i, j, k) && t[j..k] == status && FirstWord(t[k..], SEPS, number)
  }

  ghost predicate HasHeader(t: string) {
    exists status, number :: HeaderLine(t, status, number)
  }

  /** The scheme with no status behind it. */
  ghost predicate SchemeOnly(t: string) {
    exists i: nat :: SchemeAt(t, i) && AllIn(t[i + 7..], SEPS)
  }

  /** What a header of `n` received bytes says. */
  function Meaning(status: string, number: Option<string>, n: nat): Header {
    if status == "FILE_NOT_FOUND" then Absent
    else if status == "ERROR" then Failed
    else if status != "OK" then Bad
    else if number.None? || |number.value| + 15 > n then Fault
    else
      var length := Atol(number.value);
      Found(if length < 0 then 0x1_0000_0000_0000_0000 + length else length, |number.value| + 15)
  }

  lemma SchemeToken(t: string, i: nat)
    requires SchemeAt(t, i)
    ensures NextToken(t, 0, " ") == Some(Token(i, i + 7))
  {
    assert t[0..i] == t[..i];
    NextTokenIs(t, 0, i, i + 7, " ");
  }

  lemma TokenIsScheme(t: string)
    requires var t0 := NextToken(t, 0, " "); t0.Some? && Text(t, t0) == Some("GETFILE")
    ensures SchemeAt(t, NextToken(t, 0, " ").value.start)
    ensures NextToken(t, 0, " ").value.end == NextToken(t, 0, " ").value.start + 7
  {
    var t0 := NextToken(t, 0, " ").value;
    NextTokenFinds(t, 0, " ");
    assert |t[t0.start..t0.end]| == 7;
    assert t[0..t0.start] == t[..t0.start];
  }

  /** Where the status is looked for. */
  function Behind(t: string, i: nat): (k: nat)
    requires i + 7 <= |t|
    ensures k <= |t|
  {
    if i + 7 < |t| then i + 8 else i + 7
  }

  lemma StatusToken(t: string, i: nat, j: nat, k: nat)
    requires StatusAt(t, i, j, k)
    ensures NextToken(t, Behind(t, i), SEPS) == Some(Token(j, k))
  {
    assert t[i + 8..j] == t[i + 7..j][1..];
    NextTokenIs(t, i + 8, j, k, SEPS);
  }

  lemma TokenIsStatus(t: string, i: nat)
    requires SchemeAt(t, i)
    ensures var t1 := NextToken(t, Behind(t, i), SEPS);
      if t1.Some? then StatusAt(t, i, t1.value.start, t1.value.end) else AllIn(t[i + 7..], SEPS)
  {
    NextTokenFinds(t, Behind(t, i), SEPS);
    var t1 := NextToken(t, Behind(t, i), SEPS);
    if t1.None? {
      assert i + 7 < |t| ==> t[i + 7..] == [t[i + 7]] + t[i + 8..];
    } else {
      assert t[i + 7..t1.value.start] == [t[i + 7]] + t[i + 8..t1.value.start];
    }
  }

  lemma SeparatorsOnly(t: string, i: nat)
    requires SchemeAt(t, i) && AllIn(t[i + 7..], SEPS)
    ensures NextToken(t, Behind(t, i), SEPS) == None
  {
    assert i + 7 < |t| ==> t[i + 8..] == t[i + 7..][1..];
    NoToken(t, Behind(t, i), SEPS);
  }

  lemma BlankText(t: string)
    requires AllIn(t, " ")
    ensures NextToken(t, 0, " ") == None
  {
    assert t[0..] == t;
    NoToken(t, 0, " ");
  }

  lemma NotBlankText(t: string)
    requires !AllIn(t, " ")
    ensures NextToken(t, 0, " ").Some?
  {
    NextTokenFinds(t, 0, " ");
    assert t[0..] == t;
  }

  /** What `ParseTokens` says, given where its tokens are. */
  lemma ParsedAt(t: string, n: nat, i: nat, j: nat, k: nat, number: Option<string>)
    requires n > 10 && i + 7 <= |t| && t[i..i + 7] == "GETFILE" && NextToken(t, 0, " ") == Some(Token(i, i + 7))
    requires NextToken(t, Behind(t, i), SEPS) == Some(Token(j, k))
    requires Text(t, NextToken(t, if k < |t| then k + 1 else k, SEPS)) == number
    ensures ParseTokens(t, n) == Meaning(t[j..k], number, n)
  {
    assert After(t, Some(Token(i, i + 7))) == Behind(t, i);
    assert After(t, Some(Token(j, k))) == if k < |t| then k + 1 else k;
  }

  lemma LineParsed(t: string, n: nat, status: string, number: Option<string>)
    requires n > 10 && HeaderLine(t, status, number)
    ensures ParseTokens(t, n) == Meaning(status, number, n) && !AllIn(t, " ")
  {
    var i: nat, j: nat, k: nat :| StatusAt(t, i, j, k) && t[j..k] == status && FirstWord(t[k..], SEPS, number);
    SchemeToken(t, i);
    StatusToken(t, i, j, k);
    TokenIsWord(t, k, SEPS, number);
    ParsedAt(t, n, i, j, k, number);
    assert t[i] == t[i..i + 7][0];
  }

  lemma SchemeParsed(t: string, n: nat)
    requires n > 10 && SchemeOnly(t)
    ensures ParseTokens(t, n) == Fault
  {
    var i: nat :| SchemeAt(t, i) && AllIn(t[i + 7..], SEPS);
    SchemeToken(t, i);
    SeparatorsOnly(t, i);
    assert After(t, Some(Token(i, i + 7))) == Behind(t, i);
  }

  lemma StatusIsLine(t: string, i: nat, j: nat, k: nat)
    requires StatusAt(t, i, j, k)
    ensures HasHeader(t)
  {
    WordIsToken(t, k, SEPS);
    assert HeaderLine(t, t[j..k], Text(t, NextToken(t, if k < |t| then k + 1 else k, SEPS)));
  }

  /** A text that begins with GETFILE is a header line, or has no status. */
  lemma SchemeIsLine(t: string)
    requires Text(t, NextToken(t, 0, " ")) == Some("GETFILE")
    ensures SchemeOnly(t) || HasHeader(t)
  {
    TokenIsScheme(t);
    var i := NextToken(t, 0, " ").value.start;
    TokenIsStatus(t, i);
    var t1 := NextToken(t, Behind(t, i), SEPS);
    if t1.Some? {
      StatusIsLine(t, i, t1.value.start, t1.value.end);
    }
  }

  /**
   * Whatever the first piece is: the client gets something out of it only if it has more than ten bytes and is a
   * GETFILE header with a status the client knows.  It rejects everything else, but for blanks alone, a scheme
   * without a status, and an OK without a length or with a length that reaches behind the piece: those crash it.
   */
  lemma HeaderIs(piece: string)
    ensures |piece| <= 7 ==> ParseHeader(piece) == Bad
    ensures |piece| > 7 && AllIn(CStr(piece), " ") ==> ParseHeader(piece) == Fault
    ensures 7 < |piece| <= 10 && !AllIn(CStr(piece), " ") ==> ParseHeader(piece) == Bad
    ensures |piece| > 10 && SchemeOnly(CStr(piece)) ==> ParseHeader(piece) == Fault
    ensures |piece| > 10 ==> forall status, number :: HeaderLine(CStr(piece), status, number) ==>
      ParseHeader(piece) == Meaning(status, number, |piece|)
    ensures |piece| > 10 && !AllIn(CStr(piece), " ") && !SchemeOnly(CStr(piece)) ==>
      HasHeader(CStr(piece)) || ParseHeader(piece) == Bad
  {
    var t := CStr(piece);
    if AllIn(t, " ") {
      BlankText(t);
    } else {
      NotBlankText(t);
    }
    if |piece| > 10 {
      LongHeaderIs(t, |piece|);
    }
  }

  lemma LongHeaderIs(t: string, n: nat)
    requires n > 10
    ensures SchemeOnly(t) ==> ParseTokens(t, n) == Fault
    ensures forall status, number :: HeaderLine(t, status, number) ==> ParseTokens(t, n) == Meaning(status, number, n)
    ensures !AllIn(t, " ") && !SchemeOnly(t) ==>
      HasHeader(t) || ParseTokens(t, n) == Bad
  {
    if SchemeOnly(t) {
      SchemeParsed(t, n);
    }
    forall status, number | HeaderLine(t, status, number)
      ensures ParseTokens(t, n) == Meaning(status, number, n)
    {
      LineParsed(t, n, status, number);
    }
    if !AllIn(t, " ") {
      NotBlankText(t);
      if Text(t, NextToken(t, 0, " ")) == Some("GETFILE") {
        SchemeIsLine(t);
      }
    }
  }
}
