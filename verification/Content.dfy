/** The content table: a growing array of rows, sorted by key and searched by bisection. */
module Content {
  import opened Wrappers
  import opened CStrings

  datatype Item = Item(fildes: int, key: string)

  // ---------- one row of the list ----------

  /** Up to the first blank or tab. */
  function Field(s: string): (f: string)
    ensures f <= s
  {
    s[..Scan(s, 0, " \t")]
  }

  /** The line without its last character, which should be the end-of-line. */
  function Row(line: string): string
    requires line != ""
  {
    line[..|line| - 1]
  }

  function KeyOf(line: string): string
    requires line != ""
  {
    Field(Row(line))
  }

  /** The second field; None when the row has no separator. */
  function PathOf(line: string): Option<string>
    requires line != ""
  {
    var key := KeyOf(line);
    if |key| == |Row(line)| then None else Some(Field(Row(line)[|key| + 1..]))
  }

  /** Up to its last character the line is a key, a separator, a path, and nothing or a separator and anything. */
  ghost predicate TwoFields(line: string, key: string, path: string) {
    var j := |key| + 1 + |path|;
    && j < |line| && line[..|key|] == key && line[|key|] in " \t" && line[|key| + 1..j] == path
    && FreeOf(key, " \t") && FreeOf(path, " \t") && (j < |line| - 1 ==> line[j] in " \t")
  }

  /** Up to its last character the line is a key without a path. */
  ghost predicate OneField(line: string, key: string) {
    line != "" && line[..|line| - 1] == key && FreeOf(key, " \t")
  }

  lemma FieldIs(s: string, f: string)
    requires f <= s && FreeOf(f, " \t") && (|f| < |s| ==> s[|f|] in " \t")
    ensures Field(s) == f
  {
    ScanIs(s, 0, |f|, " \t");
  }

  /** A row is read as the key and the path it consists of. */
  lemma RowIsRead(line: string, key: string, path: string)
    requires TwoFields(line, key, path)
    ensures KeyOf(line) == key && PathOf(line) == Some(path)
  {
    var row := Row(line);
    assert row[|key|] == line[|key|] && row[..|key|] == key;
    FieldIs(row, key);
    var rest := row[|key| + 1..];
    assert rest[..|path|] == line[|key| + 1..|key| + 1 + |path|];
    FieldIs(rest, path);
  }

  lemma KeyIsRead(line: string, key: string)
    requires OneField(line, key)
    ensures KeyOf(line) == key && PathOf(line) == None
  {
    FieldIs(Row(line), key);
  }

  /** Rows as they are written, whatever follows the path and whatever ends the line. */
  lemma WrittenRow(key: string, sep: char, path: string, rest: string, eol: char)
    requires FreeOf(key, " \t") && FreeOf(path, " \t") && sep in " \t" && (rest == "" || rest[0] in " \t")
    ensures TwoFields(key + ([sep] + (path + (rest + [eol]))), key, path)
  {
    var line := key + ([sep] + (path + (rest + [eol])));
    assert line[|key| + 1..] == path + (rest + [eol]);
    assert line[|key| + 1..|key| + 1 + |path|] == path;
  }

  ghost predicate TextLines(lines: seq<string>) {
    forall i :: 0 <= i < |lines| ==> lines[i] != "" && NulFree(lines[i])
  }

  /** The rows in file order; `open` gives the descriptor of the i-th row. */
  function Table(lines: seq<string>, open: (nat, Option<string>) -> int): (t: seq<Item>)
    requires forall i :: 0 <= i < |lines| ==> lines[i] != ""
    ensures |t| == |lines|
  {
    seq(|lines|, i requires 0 <= i < |lines| => Item(open(i, PathOf(lines[i])), KeyOf(lines[i])))
  }

  /** Each row's descriptor is what opening its path gives, stored under its key. */
  ghost predicate RowsOpened(lines: seq<string>, open: (nat, Option<string>) -> int, t: seq<Item>) {
    && |t| == |lines|
    && (forall i, key, path :: 0 <= i < |lines| && TwoFields(lines[i], key, path) ==>
      t[i] == Item(open(i, Some(path)), key))
    && (forall i, key :: 0 <= i < |lines| && OneField(lines[i], key) ==> t[i] == Item(open(i, None), key))
  }

  lemma TableRows(lines: seq<string>, open: (nat, Option<string>) -> int)
    requires forall i :: 0 <= i < |lines| ==> lines[i] != ""
    ensures RowsOpened(lines, open, Table(lines, open))
  {
    forall i, key, path | 0 <= i < |lines| && TwoFields(lines[i], key, path)
      ensures Table(lines, open)[i] == Item(open(i, Some(path)), key)
    {
      RowIsRead(lines[i], key, path);
    }
    forall i, key | 0 <= i < |lines| && OneField(lines[i], key)
      ensures Table(lines, open)[i] == Item(open(i, None), key)
    {
      KeyIsRead(lines[i], key);
    }
  }

  // ---------- what a lookup must return ----------

  /** A descriptor stored under the key, or -1 when there is none. */
  ghost predicate LooksUp(table: seq<Item>, key: string, fd: int) {
    if fd >= 0 then Item(fd, key) in table else fd == -1 && forall it :: it in table ==> it.key != key
  }

  /** The reference: the first row with that key. */
  function LinearScan(table: seq<Item>, key: string): int {
    if table == [] then -1 else if table[0].key == key then table[0].fildes else LinearScan(table[1..], key)
  }

  ghost predicate DistinctKeys(table: seq<Item>) {
    forall i, j :: 0 <= i < j < |table| ==> table[i].key != table[j].key
  }

  /** The scan is a correct lookup, and the only one when no key is listed twice. */
  lemma {:induction false} LookupAgrees(table: seq<Item>, key: string, fd: int)
    requires forall it :: it in table ==> it.fildes >= 0
    requires LooksUp(table, key, fd)
    ensures LooksUp(table, key, LinearScan(table, key)) && (fd == -1 <==> LinearScan(table, key) == -1)
    ensures DistinctKeys(table) ==> fd == LinearScan(table, key)
  {
    if table != [] && table[0].key != key {
      assert forall it :: it in table <==> it == table[0] || it in table[1..];
      LookupAgrees(table[1..], key, fd);
    }
  }

  // ---------- the order ----------

  function ItemCmp(a: Item, b: Item): int { Strcmp(a.key, b.key) }

  /** The first `m` items are sorted. */
  ghost predicate Ascending(s: seq<Item>, m: nat)
    requires m <= |s|
  {
    forall i, j :: 0 <= i < j < m ==> ItemCmp(s[i], s[j]) <= 0
  }

  /** The first `m` items are sorted but for the one at `j`, which is not above what follows it. */
  ghost predicate AscendingBut(s: seq<Item>, m: nat, j: nat)
    requires j < m <= |s|
  {
    && (forall p, q :: 0 <= p < q < m && p != j && q != j ==> ItemCmp(s[p], s[q]) <= 0)
    && (forall q :: j < q < m ==> ItemCmp(s[j], s[q]) <= 0)
  }

  ghost predicate Permutes(s: seq<Item>, t: seq<Item>) {
    multiset(s) == multiset(t)
  }

  function Swapped(s: seq<Item>, j: nat): (t: seq<Item>)
    requires 0 < j < |s|
    ensures |t| == |s|
  {
    s[j - 1 := s[j]][j := s[j - 1]]
  }

  lemma SiftOne(s: seq<Item>, m: nat, j: nat)
    requires 0 < j < m <= |s| && AscendingBut(s, m, j) && ItemCmp(s[j - 1], s[j]) > 0
    ensures AscendingBut(Swapped(s, j), m, j - 1) && Permutes(s, Swapped(s, j))
  {
    StrcmpFlips(s[j - 1].key, s[j].key);
  }

  lemma SiftDone(s: seq<Item>, m: nat, j: nat)
    requires j < m <= |s| && AscendingBut(s, m, j) && (j > 0 ==> ItemCmp(s[j - 1], s[j]) <= 0)
    ensures Ascending(s, m)
  {
    forall p | 0 <= p < j
      ensures ItemCmp(s[p], s[j]) <= 0
    {
      if p < j - 1 {
        StrcmpTransitive(s[p].key, s[j - 1].key, s[j].key);
      }
    }
  }

  /** In place: moves the item at `i` down to its place among the sorted items before it. */
  method Sift(items: array<Item>, i: nat, ghost n: nat)
    requires i < n <= items.Length && Ascending(items[..n], i)
    modifies items
    ensures Ascending(items[..n], i + 1) && Permutes(items[..n], old(items[..n]))
  {
    var j: nat := i;
    while j > 0 && ItemCmp(items[j - 1], items[j]) > 0
      invariant j <= i && AscendingBut(items[..n], i + 1, j) && Permutes(items[..n], old(items[..n]))
    {
      ghost var before := items[..n];
      SiftOne(before, i + 1, j);
      items[j - 1], items[j] := items[j], items[j - 1];
      assert items[..n] == Swapped(before, j);
      j := j - 1;
    }
    SiftDone(items[..n], i + 1, j);
  }

  /** A sort in place, as `qsort` promises it: ascending, and the same items. */
  method Sort(items: array<Item>, n: nat)
    requires n <= items.Length
    modifies items
    ensures Ascending(items[..n], n) && Permutes(items[..n], old(items[..n]))
  {
    var i: nat := 0;
    while i < n
      invariant i <= n && Ascending(items[..n], i) && Permutes(items[..n], old(items[..n]))
    {
      Sift(items, i, n);
      i := i + 1;
    }
  }

  lemma SameItems(s: seq<Item>, t: seq<Item>)
    requires Permutes(s, t)
    ensures |s| == |t| && forall it :: it in s <==> it in t
  {
    assert |multiset(s)| == |multiset(t)|;
    assert forall it :: it in s <==> it in multiset(s);
    assert forall it :: it in t <==> it in multiset(t);
  }

  // ---------- the table ----------

  /** `realloc` to twice the size. */
  method Doubled(items: array<Item>) returns (larger: array<Item>)
    ensures fresh(larger) && larger.Length == 2 * items.Length && larger[..items.Length] == items[..]
  {
    larger := new Item[2 * items.Length];
    forall i | 0 <= i < items.Length {
      larger[i] := items[i];
    }
  }

  const INITIAL_CAPACITY := 16

  /** Stores a row behind the first `n` and makes room for the next one. */
  method AddRow(items: array<Item>, n: nat, row: Item) returns (grown: array<Item>)
    requires n < items.Length
    modifies items
    ensures grown == items || fresh(grown)
    ensures n + 1 < grown.Length && grown[..n + 1] == old(items[..n]) + [row]
  {
    items[n] := row;
    grown := items;
    if n + 1 == items.Length {
      grown := Doubled(items);
      assert grown[..n + 1] == items[..];
    }
  }

  lemma RowsAreSound(lines: seq<string>, open: (nat, Option<string>) -> int)
    requires TextLines(lines) && forall i :: 0 <= i < |lines| ==> open(i, PathOf(lines[i])) >= 0
    ensures forall it :: it in Table(lines, open) ==> it.fildes >= 0 && NulFree(it.key)
  {
  }

  class ContentTable {
    var items: array<Item>
    var nitems: nat
    /** The rows in the order of the file. */
    ghost var table: seq<Item>

    ghost predicate Valid()
      reads this, items
    {
      && nitems <= items.Length && Ascending(items[..nitems], nitems) && Permutes(items[..nitems], table)
      && forall it :: it in table ==> it.fildes >= 0 && NulFree(it.key)
    }

    constructor ()
      ensures nitems == 0 && fresh(items)
    {
      items, nitems := new Item[0], 0;
    }

    /**
     * Reads the rows. False: the process exits, at the first file it cannot open. The array doubles whenever it
     * is full, so the next row always has room.
     */
    method Load(lines: seq<string>, open: (nat, Option<string>) -> int) returns (ok: bool)
      requires TextLines(lines)
      modifies this`items, this`nitems
      ensures fresh(items) && nitems <= items.Length
      ensures ok <==> forall i :: 0 <= i < |lines| ==> open(i, PathOf(lines[i])) >= 0
      ensures ok ==> items[..nitems] == Table(lines, open) && RowsOpened(lines, open, items[..nitems])
    {
      ghost var rows := Table(lines, open);
      items, nitems := new Item[INITIAL_CAPACITY], 0;
      while nitems < |lines|
        invariant nitems <= |lines| && nitems < items.Length && fresh(items)
        invariant items[..nitems] == rows[..nitems]
        invariant forall i :: 0 <= i < nitems ==> open(i, PathOf(lines[i])) >= 0
        modifies this`items, this`nitems, items
      {
        var fildes := open(nitems, PathOf(lines[nitems]));
        if fildes < 0 {
          return false;
        }
        items := AddRow(items, nitems, Item(fildes, KeyOf(lines[nitems])));
        nitems := nitems + 1;
      }
      assert rows[..nitems] == rows;
      TableRows(lines, open);
      ok := true;
    }

    /** `content_init` */
    method Init(lines: seq<string>, open: (nat, Option<string>) -> int) returns (ok: bool)
      requires TextLines(lines)
      modifies this
      ensures fresh(items)
      ensures ok <==> forall i :: 0 <= i < |lines| ==> open(i, PathOf(lines[i])) >= 0
      ensures ok ==> Valid() && table == Table(lines, open) && RowsOpened(lines, open, table) && nitems == |lines|
    {
      ok := Load(lines, open);
      if ok {
        RowsAreSound(lines, open);
        table := Table(lines, open);
        Sort(items, nitems);
      }
    }

    /** `content_get`: bisection. None: the key is a NULL pointer and gets compared. */
    method Get(key: Option<string>) returns (fildes: Option<int>)
      requires Valid() && (key.Some? ==> NulFree(key.value))
      ensures fildes.None? <==> key.None? && table != []
      ensures fildes.Some? ==> if key.Some? then LooksUp(table, key.value, fildes.value) else fildes == Some(-1)
    {
      ghost var s := items[..nitems];
      SameItems(s, table);
      var lo: int, hi: int := 0, nitems - 1;
      while lo <= hi
        invariant 0 <= lo && hi < nitems && lo <= hi + 1
        invariant key.None? ==> lo == 0 && hi == nitems - 1
        invariant key.Some? ==>
          forall i :: (0 <= i < lo || hi < i < nitems) ==> s[i].key != key.value
      {
        if key.None? {
          return None;
        }
        var mid := lo + (hi - lo) / 2;
        var cmp := Strcmp(key.value, items[mid].key);
        Bisect(s, key.value, mid);
        if cmp < 0 {
          hi := mid - 1;
        } else if cmp > 0 {
          lo := mid + 1;
        } else {
          assert s[mid] in table;
          return Some(items[mid].fildes);
        }
      }
      return Some(-1);
    }
  }

  /** One comparison rules out everything on the other side, or finds the key. */
  lemma Bisect(s: seq<Item>, key: string, mid: nat)
    requires Ascending(s, |s|) && mid < |s| && NulFree(key) && (forall i :: 0 <= i < |s| ==> NulFree(s[i].key))
    ensures Strcmp(key, s[mid].key) == 0 <==> key == s[mid].key
    ensures Strcmp(key, s[mid].key) < 0 ==> forall i :: mid <= i < |s| ==> s[i].key != key
    ensures Strcmp(key, s[mid].key) > 0 ==> forall i :: 0 <= i <= mid ==> s[i].key != key
  {
    StrcmpZero(key, s[mid].key);
    StrcmpFlips(key, s[mid].key);
    forall i | 0 <= i < |s| && s[i].key == key
      ensures Strcmp(key, s[mid].key) < 0 ==> i < mid
      ensures Strcmp(key, s[mid].key) > 0 ==> i > mid
    {
      StrcmpFlips(s[i].key, s[mid].key);
    }
  }
}
