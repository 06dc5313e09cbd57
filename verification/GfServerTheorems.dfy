/** What the server makes of whatever a peer sends, well-formed or not. */
module GfServerTheorems {
  import opened Wrappers
  import opened CStrings
  import opened GfServer

  // ---------- the shape of a request line ----------

  /** Blanks up to `i`, the scheme, at least one blank up to `j`, the method up to `k`, then a blank or the end. */
  ghost predicate LineAt(t: string, i: nat, j: nat, k: nat) {
    && i + 7 < j < k <= |t|
    && AllIn(t[..i], " ") && t[i..i + 7] == "GETFILE" && AllIn(t[i + 7..j], " ")
    && FreeOf(t[j..k], " ") && (k < |t| ==> t[k] == ' ')
  }

  /** A GETFILE line with that method, and with that path as the first word behind it. */
  ghost predicate RequestLine(t: string, verb: string, path: Option<string>) {
    exists i: nat, j: nat, k: nat :: LineAt(t, i, j, k) && t[j..k] == verb && FirstWord(t[k..], " \r\n", path)
  }

  lemma SchemeToken(t: string, i: nat)
    requires i + 7 < |t| && AllIn(t[..i], " ") && t[i..i + 7] == "GETFILE" && t[i + 7] == ' '
    ensures NextToken(t, 0, " ") == Some(Token(i, i + 7))
  {
    assert t[0..i] == t[..i];
    NextTokenIs(t, 0, i, i + 7, " ");
  }

  /** The scheme and the method, as the tokeniser finds them. */
  lemma FirstTwoTokens(t: string, i: nat, j: nat, k: nat)
    requires LineAt(t, i, j, k)
    ensures NextToken(t, 0, " ") == Some(Token(i, i + 7)) && NextToken(t, i + 8, " ") == Some(Token(j, k))
  {
    assert t[i + 7] == t[i + 7..j][0];
    SchemeToken(t, i);
    assert t[i + 8..j] == t[i + 7..j][1..];
    NextTokenIs(t, i + 8, j, k, " ");
  }

  lemma LineAtSplits(t: string, i: nat, j: nat, k: nat, path: Option<string>)
    requires LineAt(t, i, j, k)
    requires Text(t, NextToken(t, if k < |t| then k + 1 else k, " \r\n")) == path
    ensures Split(t) == Line(Some("GETFILE"), Some(t[j..k]), path)
  {
    FirstTwoTokens(t, i, j, k);
    assert After(t, Some(Token(i, i + 7))) == i + 8;
    assert After(t, Some(Token(j, k))) == if k < |t| then k + 1 else k;
  }

  /** A GETFILE line splits into its scheme, its method and its path. */
  lemma LineSplits(t: string, verb: string, path: Option<string>)
    requires RequestLine(t, verb, path)
    ensures Split(t) == Line(Some("GETFILE"), Some(verb), path)
  {
    var i: nat, j: nat, k: nat :| LineAt(t, i, j, k) && t[j..k] == verb && FirstWord(t[k..], " \r\n", path);
    TokenIsWord(t, k, " \r\n", path);
    LineAtSplits(t, i, j, k, path);
  }

  lemma TokensAreLine(t: string, t0: Token, t1: Token)
    requires NextToken(t, 0, " ") == Some(t0) && t[t0.start..t0.end] == "GETFILE" && t0.end < |t|
    requires NextToken(t, t0.end + 1, " ") == Some(t1)
    ensures LineAt(t, t0.start, t1.start, t1.end)
  {
    NextTokenFinds(t, 0, " ");
    NextTokenFinds(t, t0.end + 1, " ");
    assert t[0..t0.start] == t[..t0.start];
    assert t[t0.end..t1.start] == [t[t0.end]] + t[t0.end + 1..t1.start];
    assert t0.end == t0.start + 7;
  }

  /** A text whose first token is GETFILE and that has a second one is a GETFILE line. */
  lemma SplitIsLine(t: string)
    requires Split(t).scheme == Some("GETFILE") && Split(t).request.Some?
    ensures RequestLine(t, Split(t).request.value, Split(t).file)
  {
    var t0 := NextToken(t, 0, " ").value;
    assert t0.end < |t|;
    var t1 := NextToken(t, t0.end + 1, " ").value;
    TokensAreLine(t, t0, t1);
    WordIsToken(t, t1.end, " \r\n");
    assert LineAt(t, t0.start, t1.start, t1.end);
  }

  /** Blanks, the scheme, blanks, a method, and a rest that is empty or begins with a blank. */
  lemma PartsAreLine(w: string, b: string, verb: string, rest: string, path: Option<string>)
    requires AllIn(w, " ") && AllIn(b, " ") && b != "" && verb != "" && FreeOf(verb, " ")
    requires (rest == "" || rest[0] == ' ') && FirstWord(rest, " \r\n", path)
    ensures RequestLine(w + ("GETFILE" + (b + (verb + rest))), verb, path)
  {
    var t := w + ("GETFILE" + (b + (verb + rest)));
    var i := |w|;
    var j := i + 7 + |b|;
    var k := j + |verb|;
    assert t[..i] == w && t[i..i + 7] == "GETFILE" && t[i + 7..j] == b && t[j..k] == verb && t[k..] == rest;
    assert LineAt(t, i, j, k);
  }

  // ---------- the decision ----------

  /** What follows path, scheme and method with single blanks between them makes the server receive again. */
  predicate Unfinished(n: nat, t: string, path: Option<string>) {
    match path
    case None => n == 12
    case Some(p) =>
      || (|t| == 13 + |p| && t[|t| - 1] != ' ')
      || (|t| == 16 + |p| && t[|t| - 4..] != "\r\n\r\n")
  }

  /** The text after a second `recv`. */
  function Joined(pieces: seq<string>): string
    requires pieces != []
  {
    CStr(pieces[0]) + if |pieces| > 1 then CStr(pieces[1]) else ""
  }

  lemma NeedsMoreIs(n: nat, t: string, path: Option<string>)
    requires RequestLine(t, "GET", path)
    ensures NeedsMore(n, t, Split(t)) <==> Unfinished(n, t, path)
  {
    LineSplits(t, "GET", path);
    if path.Some? {
      var m := 12 + |path.value|;
      assert Marker(t, Split(t)) == t[m..];
      assert |t| == m + 1 ==> t[m..] == [t[m]];
      assert |t| == m + 4 ==> t[m..] == t[|t| - 4..];
    }
  }

  /** A token that begins with GET. */
  lemma GrownToken(s: string, i: nat, j: nat)
    requires i <= j && j + 3 <= |s| && AllIn(s[i..j], " ") && s[j..j + 3] == "GET"
    ensures var t := NextToken(s, i, " "); t.Some? && t.value.start == j && t.value.end >= j + 3
  {
    assert s[j] == s[j..j + 3][0] && s[j + 1] == s[j..j + 3][1] && s[j + 2] == s[j..j + 3][2];
    SkipIs(s, i, j, " ");
    assert Scan(s, j, " ") == Scan(s, j + 1, " ") == Scan(s, j + 2, " ") == Scan(s, j + 3, " ");
  }

  lemma SlicesStay(t: string, more: string, a: nat, b: nat)
    requires a <= b <= |t|
    ensures (t + more)[a..b] == t[a..b]
  {
  }

  lemma GrownLine(t: string, more: string, i: nat, j: nat, k: nat)
    requires LineAt(t, i, j, k)
    ensures var s := t + more;
      && AllIn(s[..i], " ") && s[i..i + 7] == "GETFILE" && s[i + 7] == ' '
      && AllIn(s[i + 8..j], " ") && s[j..k] == t[j..k] && k <= |s|
  {
    assert t[i + 7] == t[i + 7..j][0];
    SlicesStay(t, more, 0, i);
    SlicesStay(t, more, i, i + 7);
    SlicesStay(t, more, i + 8, j);
    SlicesStay(t, more, j, k);
    assert t[i + 8..j] == t[i + 7..j][1..];
  }

  lemma GrownSplits(s: string, i: nat, j: nat)
    requires i + 7 < j && j + 3 <= |s| && AllIn(s[..i], " ") && s[i..i + 7] == "GETFILE" && s[i + 7] == ' '
    requires AllIn(s[i + 8..j], " ") && s[j..j + 3] == "GET"
    ensures var l := Split(s); l.scheme == Some("GETFILE") && l.request.Some? && "GET" <= l.request.value
  {
    SchemeToken(s, i);
    GrownToken(s, i + 8, j);
    var e := NextToken(s, i + 8, " ").value.end;
    assert s[j..e][..3] == s[j..j + 3];
  }

  /** Whatever is appended to a line, it stays one, though its method may grow. */
  lemma PrefixIsLine(t: string, more: string, path: Option<string>)
    requires RequestLine(t, "GET", path)
    ensures exists verb, again :: "GET" <= verb && RequestLine(t + more, verb, again)
  {
    var i: nat, j: nat, k: nat :| LineAt(t, i, j, k) && t[j..k] == "GET" && FirstWord(t[k..], " \r\n", path);
    var s := t + more;
    GrownLine(t, more, i, j, k);
    GrownSplits(s, i, j);
    SplitIsLine(s);
  }

  /** A line determines its method and its path. */
  lemma LineIsUnique(t: string, verb: string, path: Option<string>, verb': string, path': Option<string>)
    requires RequestLine(t, verb, path) && RequestLine(t, verb', path')
    ensures verb == verb' && path == path'
  {
    LineSplits(t, verb, path);
    LineSplits(t, verb', path');
  }

  lemma AcceptedIs(t: string)
    ensures Accepted(Split(t)) <==> exists path :: RequestLine(t, "GET", path)
  {
    if Accepted(Split(t)) {
      SplitIsLine(t);
    }
    if path :| RequestLine(t, "GET", path) {
      LineSplits(t, "GET", path);
    }
  }

  /** What is done with a GETFILE line. */
  ghost predicate Handles(pieces: seq<string>, ends: bool, path: Option<string>, action: Action)
    requires pieces != []
  {
    if !Unfinished(|pieces[0]|, CStr(pieces[0]), path) then action == Invoke(path)
    else if |pieces| == 1 && !ends then action == Starve
    else exists verb, again ::
      "GET" <= verb && RequestLine(Joined(pieces), verb, again) && action == Invoke(again)
  }

  /** The decision on a line that looks unfinished. */
  lemma DecisionWaits(pieces: seq<string>, ends: bool)
    requires pieces != [] && Accepted(Split(CStr(pieces[0])))
    requires NeedsMore(|pieces[0]|, CStr(pieces[0]), Split(CStr(pieces[0]))) && (|pieces| > 1 || ends)
    ensures Dispatch(pieces, ends) == Invoke(Split(Joined(pieces)).file)
  {
  }

  lemma LineWaits(pieces: seq<string>, ends: bool, path: Option<string>)
    requires pieces != [] && RequestLine(CStr(pieces[0]), "GET", path)
    requires Unfinished(|pieces[0]|, CStr(pieces[0]), path) && (|pieces| > 1 || ends)
    ensures Handles(pieces, ends, path, Dispatch(pieces, ends))
  {
    LineSplits(CStr(pieces[0]), "GET", path);
    NeedsMoreIs(|pieces[0]|, CStr(pieces[0]), path);
    DecisionWaits(pieces, ends);
    PrefixIsLine(CStr(pieces[0]), if |pieces| > 1 then CStr(pieces[1]) else "", path);
    JoinedHandled(pieces, ends, path, Dispatch(pieces, ends));
  }

  lemma JoinedHandled(pieces: seq<string>, ends: bool, path: Option<string>, action: Action)
    requires pieces != [] && (|pieces| > 1 || ends) && Unfinished(|pieces[0]|, CStr(pieces[0]), path)
    requires exists verb, again :: "GET" <= verb && RequestLine(Joined(pieces), verb, again)
    requires action == Invoke(Split(Joined(pieces)).file)
    ensures Handles(pieces, ends, path, action)
  {
    var verb, again :| "GET" <= verb && RequestLine(Joined(pieces), verb, again);
    LineSplits(Joined(pieces), verb, again);
  }

  lemma LineHandled(pieces: seq<string>, ends: bool, path: Option<string>)
    requires pieces != [] && RequestLine(CStr(pieces[0]), "GET", path)
    ensures Handles(pieces, ends, path, Dispatch(pieces, ends))
  {
    var t := CStr(pieces[0]);
    if Unfinished(|pieces[0]|, t, path) && (|pieces| > 1 || ends) {
      LineWaits(pieces, ends, path);
    } else {
      LineSplits(t, "GET", path);
      NeedsMoreIs(|pieces[0]|, t, path);
    }
  }

  /**
   * Whatever arrives: the server refuses exactly when the first piece is no GETFILE line with the method GET.
   * Otherwise it hands over the first word behind the method, or, when the line looks unfinished, the first
   * word behind the method in what two pieces hold together, for which it waits.
   */
  lemma DispatchIs(pieces: seq<string>, ends: bool)
    ensures pieces == [] ==> Dispatch(pieces, ends) == if ends then Refuse else Starve
    ensures pieces != [] ==>
      (Dispatch(pieces, ends) != Refuse <==> exists path :: RequestLine(CStr(pieces[0]), "GET", path))
    ensures pieces != [] ==> forall path :: RequestLine(CStr(pieces[0]), "GET", path) ==>
      Handles(pieces, ends, path, Dispatch(pieces, ends))
  {
    if pieces != [] {
      AcceptedIs(CStr(pieces[0]));
      forall path | RequestLine(CStr(pieces[0]), "GET", path)
        ensures Handles(pieces, ends, path, Dispatch(pieces, ends))
      {
        LineHandled(pieces, ends, path);
      }
      DecisionRefuses(pieces, ends);
    }
  }

  lemma DecisionRefuses(pieces: seq<string>, ends: bool)
    requires pieces != []
    ensures Dispatch(pieces, ends) == Refuse <==> !Accepted(Split(CStr(pieces[0])))
  {
  }
}
