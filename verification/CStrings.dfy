/** C strings: termination, `strcmp`, and `strtok` with the in-place tokeniser that refines it. */
module CStrings {
  import opened Wrappers

  const NUL := '\0'

  ghost predicate NulFree(s: string) {
    forall i :: 0 <= i < |s| ==> s[i] != NUL
  }

  /** The C string at the start of a buffer that is followed by NUL. */
  function CStr(s: string): (t: string)
    ensures t <= s && NulFree(t)
    ensures |t| < |s| ==> s[|t|] == NUL
  {
    if s != [] && s[0] != NUL then [s[0]] + CStr(s[1..]) else []
  }

  lemma {:induction false} CStrOfNulFree(s: string)
    requires NulFree(s)
    ensures CStr(s) == s
  {
    if s != [] {
      CStrOfNulFree(s[1..]);
    }
  }

  // ---------- strcmp ----------

  /** The first byte of a C string; 0 at its end. */
  function Head(s: string): int {
    if s == [] then 0 else s[0] as int
  }

  function Strcmp(a: string, b: string): int {
    if Head(a) != Head(b) || Head(a) == 0 then Head(a) - Head(b) else Strcmp(a[1..], b[1..])
  }

  /** The first byte that differs decides. */
  lemma {:induction false} StrcmpOrders(p: string, a: string, b: string)
    requires NulFree(p) && NulFree(a) && NulFree(b) && (a == "" || b == "" || a[0] != b[0]) && a != b
    ensures Strcmp(p + a, p + b) < 0 <==> a == "" || (b != "" && a[0] < b[0])
  {
    if p == "" {
      assert p + a == a && p + b == b;
    } else {
      assert (p + a)[1..] == p[1..] + a && (p + b)[1..] == p[1..] + b;
      StrcmpOrders(p[1..], a, b);
    }
  }

  /** Zero exactly on equal strings. */
  lemma {:induction false} StrcmpZero(a: string, b: string)
    requires NulFree(a) && NulFree(b)
    ensures Strcmp(a, b) == 0 <==> a == b
  {
    if a != [] && b != [] && a[0] == b[0] {
      StrcmpZero(a[1..], b[1..]);
      assert a == [a[0]] + a[1..] && b == [b[0]] + b[1..];
    }
  }

  lemma {:induction false} StrcmpFlips(a: string, b: string)
    ensures Strcmp(a, b) == -Strcmp(b, a)
  {
    if Head(a) == Head(b) && Head(a) != 0 {
      StrcmpFlips(a[1..], b[1..]);
    }
  }

  lemma {:induction false} StrcmpTransitive(a: string, b: string, c: string)
    requires Strcmp(a, b) <= 0 && Strcmp(b, c) <= 0
    ensures Strcmp(a, c) <= 0
    ensures Strcmp(a, b) < 0 || Strcmp(b, c) < 0 ==> Strcmp(a, c) < 0
  {
    if Head(a) == Head(b) == Head(c) && Head(a) != 0 {
      StrcmpTransitive(a[1..], b[1..], c[1..]);
    }
  }

  // ---------- strtok ----------

  /** The first position from `i` on that is not a delimiter. */
  function Skip(s: string, i: nat, delims: string): (j: nat)
    requires i <= |s|
    ensures i <= j <= |s| && (j < |s| ==> s[j] !in delims)
    decreases |s| - i
  {
    if i < |s| && s[i] in delims then Skip(s, i + 1, delims) else i
  }

  /** The first position from `i` on that is a delimiter. */
  function Scan(s: string, i: nat, delims: string): (j: nat)
    requires i <= |s|
    ensures i <= j <= |s| && (j < |s| ==> s[j] in delims)
    decreases |s| - i
  {
    if i < |s| && s[i] !in delims then Scan(s, i + 1, delims) else i
  }

  datatype Token = Token(start: nat, end: nat)

  /** The next token from position `i` on. */
  function NextToken(s: string, i: nat, delims: string): (t: Option<Token>)
    requires i <= |s|
    ensures t.Some? ==> i <= t.value.start < t.value.end <= |s|
  {
    var start := Skip(s, i, delims);
    if start == |s| then None else Some(Token(start, Scan(s, start, delims)))
  }

  /** Where `strtok` goes on after that token. */
  function After(s: string, t: Option<Token>): (j: nat)
    requires t.Some? ==> t.value.end <= |s|
    ensures j <= |s|
  {
    if t.None? then |s| else if t.value.end < |s| then t.value.end + 1 else t.value.end
  }

  /** The text of a token, or None for a NULL pointer. */
  function Text(s: string, t: Option<Token>): Option<string>
    requires t.Some? ==> t.value.start <= t.value.end <= |s|
  {
    if t.None? then None else Some(s[t.value.start..t.value.end])
  }

  lemma {:induction false} ScanSkipsNone(s: string, i: nat, delims: string)
    requires i <= |s|
    ensures forall k :: i <= k < Scan(s, i, delims) ==> s[k] !in delims
    decreases |s| - i
  {
    if i < |s| && s[i] !in delims {
      ScanSkipsNone(s, i + 1, delims);
    }
  }

  /** A token is not empty and free of delimiters and NUL. */
  lemma TokenIsClean(s: string, i: nat, delims: string)
    requires i <= |s| && NulFree(s)
    ensures var t := Text(s, NextToken(s, i, delims));
      t.Some? ==> t.value != "" && NulFree(t.value) && forall k :: 0 <= k < |t.value| ==> t.value[k] !in delims
  {
    ScanSkipsNone(s, Skip(s, i, delims), delims);
  }

  lemma {:induction false} ScanIs(s: string, i: nat, e: nat, delims: string)
    requires i <= e <= |s| && (forall k :: i <= k < e ==> s[k] !in delims) && (e == |s| || s[e] in delims)
    ensures Scan(s, i, delims) == e
    decreases e - i
  {
    if i < e {
      ScanIs(s, i + 1, e, delims);
    }
  }

  /** A stretch without delimiters, up to a delimiter or the end, is the next token. */
  lemma TokenIs(s: string, i: nat, e: nat, delims: string)
    requires i < e <= |s| && (forall k :: i <= k < e ==> s[k] !in delims) && (e == |s| || s[e] in delims)
    ensures NextToken(s, i, delims) == Some(Token(i, e))
  {
    ScanIs(s, i, e, delims);
  }

  // ---------- what a token is ----------

  ghost predicate AllIn(s: string, delims: string) {
    forall i :: 0 <= i < |s| ==> s[i] in delims
  }

  ghost predicate FreeOf(s: string, delims: string) {
    forall i :: 0 <= i < |s| ==> s[i] !in delims
  }

  lemma {:induction false} SkipSkips(s: string, i: nat, delims: string)
    requires i <= |s|
    ensures AllIn(s[i..Skip(s, i, delims)], delims)
    decreases |s| - i
  {
    if i < |s| && s[i] in delims {
      SkipSkips(s, i + 1, delims);
      assert s[i..Skip(s, i, delims)] == [s[i]] + s[i + 1..Skip(s, i, delims)];
    }
  }

  lemma {:induction false} SkipIs(s: string, i: nat, j: nat, delims: string)
    requires i <= j <= |s| && AllIn(s[i..j], delims) && (j == |s| || s[j] !in delims)
    ensures Skip(s, i, delims) == j
    decreases j - i
  {
    if i < j {
      assert s[i] == s[i..j][0] && s[i + 1..j] == s[i..j][1..];
      SkipIs(s, i + 1, j, delims);
    }
  }

  /** Delimiters, then the token, then a delimiter or the end; or nothing but delimiters. */
  lemma NextTokenFinds(s: string, i: nat, delims: string)
    requires i <= |s|
    ensures match NextToken(s, i, delims)
      case None => AllIn(s[i..], delims)
      case Some(t) =>
        && AllIn(s[i..t.start], delims) && FreeOf(s[t.start..t.end], delims)
        && (t.end == |s| || s[t.end] in delims)
  {
    var start := Skip(s, i, delims);
    SkipSkips(s, i, delims);
    ScanSkipsNone(s, start, delims);
    if start == |s| {
      assert s[i..start] == s[i..];
    }
  }

  /** A stretch without delimiters behind delimiters is the next token. */
  lemma NextTokenIs(s: string, i: nat, j: nat, e: nat, delims: string)
    requires i <= j < e <= |s| && AllIn(s[i..j], delims) && FreeOf(s[j..e], delims) && (e == |s| || s[e] in delims)
    ensures NextToken(s, i, delims) == Some(Token(j, e))
  {
    assert s[j] == s[j..e][0];
    SkipIs(s, i, j, delims);
    assert forall k :: j <= k < e ==> s[k] == s[j..e][k - j];
    ScanIs(s, j, e, delims);
  }

  lemma NoToken(s: string, i: nat, delims: string)
    requires i <= |s| && AllIn(s[i..], delims)
    ensures NextToken(s, i, delims) == None
  {
    assert s[i..|s|] == s[i..];
    SkipIs(s, i, |s|, delims);
  }

  /** `word` is what stands in `s` between the separators `d` and the rest `e`. */
  ghost predicate WordAt(s: string, seps: string, d: string, word: string, e: string) {
    s == d + word + e && AllIn(d, seps) && word != "" && FreeOf(word, seps) && (e == "" || e[0] in seps)
  }

  /** The first word of a string, if it has one. */
  ghost predicate FirstWord(s: string, seps: string, word: Option<string>) {
    match word
    case None => AllIn(s, seps)
    case Some(q) => exists d, e :: WordAt(s, seps, d, q, e)
  }

  /** The token behind a separator is the first word from there on. */
  lemma TokenIsWord(s: string, i: nat, seps: string, word: Option<string>)
    requires i <= |s| && (i < |s| ==> s[i] in seps) && FirstWord(s[i..], seps, word)
    ensures Text(s, NextToken(s, if i < |s| then i + 1 else i, seps)) == word
  {
    var rest := s[i..];
    var k := if i < |s| then i + 1 else i;
    if word.None? {
      assert forall m :: k <= m < |s| ==> s[m] == rest[m - i];
      assert AllIn(s[k..], seps);
      NoToken(s, k, seps);
    } else {
      var d, e :| WordAt(rest, seps, d, word.value, e);
      var j, end := i + |d|, i + |d| + |word.value|;
      assert rest[|d|] == word.value[0];
      assert forall m :: i <= m < j ==> s[m] == d[m - i];
      assert forall m :: j <= m < end ==> s[m] == word.value[m - j];
      assert end < |s| ==> s[end] == e[0];
      assert AllIn(s[k..j], seps) && FreeOf(s[j..end], seps);
      NextTokenIs(s, k, j, end, seps);
      assert s[j..end] == word.value;
    }
  }

  lemma WordIsToken(s: string, i: nat, seps: string)
    requires i <= |s| && (i < |s| ==> s[i] in seps)
    ensures FirstWord(s[i..], seps, Text(s, NextToken(s, if i < |s| then i + 1 else i, seps)))
  {
    var k := if i < |s| then i + 1 else i;
    NextTokenFinds(s, k, seps);
    var t := NextToken(s, k, seps);
    var rest := s[i..];
    if t.None? {
      assert forall m :: i < m < |s| ==> s[m] == s[k..][m - k];
      assert AllIn(rest, seps);
    } else {
      var d, word, e := s[i..t.value.start], s[t.value.start..t.value.end], s[t.value.end..];
      assert forall m :: i < m < t.value.start ==> s[m] == s[k..t.value.start][m - k];
      assert rest == d + word + e;
      assert WordAt(rest, seps, d, word, e);
    }
  }

  /** A buffer holds the C string `s` at a position. */
  ghost predicate HoldsAt(buf: seq<char>, start: nat, s: string) {
    start + |s| < |buf| && buf[start..start + |s|] == s && buf[start + |s|] == NUL && NulFree(s)
  }

  /** A C string already in the buffer stays when the bytes up to its NUL do. */
  lemma HeldStays(before: seq<char>, after: seq<char>, start: nat, s: string)
    requires HoldsAt(before, start, s) && |after| == |before|
    requires forall i :: start <= i <= start + |s| ==> after[i] == before[i]
    ensures HoldsAt(after, start, s)
  {
  }

  /** What a buffer holds at a position is unique, and is what `CStr` reads there. */
  lemma {:induction false} HeldIsCStr(buf: seq<char>, start: nat, s: string)
    requires HoldsAt(buf, start, s)
    ensures CStr(buf[start..]) == s
    decreases s
  {
    if s != [] {
      assert buf[start] == s[0] && buf[start + 1..start + |s|] == s[1..];
      HeldIsCStr(buf, start + 1, s[1..]);
      assert buf[start..][1..] == buf[start + 1..];
    }
  }

  /** Behind the NUL nothing matters. */
  lemma {:induction false} CStrStops(s: string, rest: string)
    ensures CStr(s + [NUL] + rest) == CStr(s)
  {
    var t := s + [NUL] + rest;
    if s != [] && s[0] != NUL {
      assert t[1..] == s[1..] + [NUL] + rest;
      CStrStops(s[1..], rest);
    }
  }

  /** Reads the C string at a position (`strlen`, `strcpy`, `strcmp` all walk it like this). */
  method StringAt(buf: array<char>, start: nat) returns (s: string)
    requires start < buf.Length && exists e :: start <= e < buf.Length && buf[e] == NUL
    ensures HoldsAt(buf[..], start, s) && s == CStr(buf[start..])
  {
    ghost var e :| start <= e < buf.Length && buf[e] == NUL;
    var i := start;
    while buf[i] != NUL
      invariant start <= i <= e && NulFree(buf[start..i])
      decreases e - i
    {
      i := i + 1;
    }
    s := buf[start..i];
    HeldIsCStr(buf[..], start, s);
    assert buf[..][start..] == buf[start..];
  }

  datatype Held = Held(start: nat, word: string)

  /** Each of these words is in the buffer as a C string that ends at `limit` or before. */
  ghost predicate AllHeld(buf: seq<char>, held: set<Held>, limit: nat) {
    forall h :: h in held ==> HoldsAt(buf, h.start, h.word) && h.start + |h.word| <= limit
  }

  /** Cutting the buffer behind a new token keeps the earlier words and adds the token. */
  lemma HeldAdds(buf: seq<char>, held: set<Held>, limit: nat, text: string, start: nat, end: nat)
    requires AllHeld(buf, held, limit) && NulFree(text)
    requires limit <= start < end <= |text| < |buf| && buf[start..end] == text[start..end]
    ensures AllHeld(buf[end := NUL], held + {Held(start, text[start..end])}, end)
  {
    var cut, word := buf[end := NUL], text[start..end];
    assert cut[start..start + |word|] == word;
    forall h | h in held
      ensures HoldsAt(cut, h.start, h.word)
    {
      HeldStays(buf, cut, h.start, h.word);
    }
  }

  /** `strtok` working in a buffer: it overwrites the delimiter behind each token with NUL. */
  class Tokenizer {
    const buf: array<char>
    var save: nat
    ghost const text: string
    /** The tokens returned so far; each stays readable in the buffer. */
    ghost var held: set<Held>

    ghost predicate Valid()
      reads this, buf
    {
      && |text| < buf.Length && NulFree(text)
      && buf[|text|] == NUL && save <= |text|
      && (forall i :: save <= i < |text| ==> buf[i] == text[i])
      && AllHeld(buf[..], held, save)
    }

    constructor (b: array<char>, ghost t: string)
      requires |t| < b.Length && NulFree(t) && b[|t|] == NUL && b[..|t|] == t
      ensures Valid() && buf == b && text == t && save == 0 && held == {}
    {
      buf, save, text, held := b, 0, t, {};
    }

    /** `strtok` given a string again: the scan goes on from there. */
    method Restart(start: nat)
      requires Valid() && start <= |text| && forall i :: start <= i < |text| ==> buf[i] == text[i]
      modifies this`save, this`held
      ensures Valid() && save == start && held == {}
    {
      save, held := start, {};
    }

    /** `strspn` from where the scan stands. */
    method Span(delims: string) returns (i: nat)
      requires Valid() && NUL !in delims
      ensures i == Skip(text, save, delims)
    {
      i := save;
      while buf[i] != NUL && buf[i] in delims
        invariant save <= i <= |text| && Skip(text, save, delims) == Skip(text, i, delims)
        decreases |text| - i
      {
        i := i + 1;
      }
    }

    /** `strcspn` from a position. */
    method Break(start: nat, delims: string) returns (i: nat)
      requires Valid() && NUL !in delims && save <= start <= |text|
      ensures i == Scan(text, start, delims)
    {
      i := start;
      while buf[i] != NUL && buf[i] !in delims
        invariant start <= i <= |text| && Scan(text, start, delims) == Scan(text, i, delims)
        decreases |text| - i
      {
        i := i + 1;
      }
    }

    /** Returns where the token starts in the buffer; the buffer now holds it as a C string there. */
    method Next(delims: string) returns (tok: Option<nat>, ghost t: Option<Token>)
      requires Valid() && NUL !in delims
      modifies this`save, this`held, buf
      ensures Valid() && t == NextToken(text, old(save), delims) && save == After(text, t)
      ensures tok == if t.Some? then Some(t.value.start) else None
      ensures held == old(held) + (if t.Some? then {Held(t.value.start, Text(text, t).value)} else {})
      ensures t.Some? && t.value.end == |text| ==> buf[..|text|] == old(buf[..|text|])
    {
      var start := Span(delims);
      t := NextToken(text, save, delims);
      if buf[start] == NUL {
        save := start;
        return None, t;
      }
      var i := Break(start, delims);
      ghost var before := buf[..];
      assert before[start..i] == text[start..i];
      HeldAdds(before, held, save, text, start, i);
      held := held + {Held(start, text[start..i])};
      if buf[i] == NUL {
        save := i;
      } else {
        buf[i] := NUL;
        save := i + 1;
      }
      assert buf[..] == before[i := NUL];
      return Some(start), t;
    }

    /** The string a returned pointer points at; None for NULL. */
    method Read(tok: Option<nat>, ghost word: Option<string>) returns (s: Option<string>)
      requires Valid() && (tok.Some? <==> word.Some?)
      requires tok.Some? ==> Held(tok.value, word.value) in held
      ensures s == word
    {
      if tok.None? {
        return None;
      }
      var w := StringAt(buf, tok.value);
      HeldIsCStr(buf[..], tok.value, word.value);
      assert buf[..][tok.value..] == buf[tok.value..];
      return Some(w);
    }
  }
}
