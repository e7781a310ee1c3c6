/** The file-backed corpus: one numbered file per case, read back in the order of the names. */
module FileCorpora {

  import opened Wrappers
  import opened Strings
  import opened FileNames
  import opened AtomicFiles
  import opened Corpus

  datatype Entry = Entry(c: Case, sponsor: string)

  type Files = FilesOf<Entry>

  const PREFIX := "case-"
  const INFIX := ".tmp-"

  function CaseName(n: nat): string {
    NumberedName(PREFIX, n)
  }

  predicate Contains(s: string, t: string) {
    t <= s || (s != "" && Contains(s[1..], t))
  }

  predicate IsCaseName(name: string) {
    StartsWith(name, PREFIX) && EndsWith(name, SUFFIX) && !Contains(name, INFIX)
  }

  lemma {:induction false} ContainsExactly(s: string, t: string)
    ensures Contains(s, t) <==> exists before: string, after: string :: s == before + (t + after)
    decreases |s|
  {
    if t <= s {
      assert s == "" + (t + s[|t|..]);
    } else if s != "" {
      ContainsExactly(s[1..], t);
      if Contains(s[1..], t) {
        var before: string, after: string :| s[1..] == before + (t + after);
        assert s == ([s[0]] + before) + (t + after);
      }
      if before: string, after: string :| s == before + (t + after) {
        LaterIn(s, t, before, after);
      }
    } else {
      forall before: string, after: string ensures |before + (t + after)| > |s| {
      }
    }
  }

  lemma LaterIn(s: string, t: string, before: string, after: string)
    requires s == before + (t + after) && !(t <= s)
    ensures s[1..] == before[1..] + (t + after)
  {
    assert before != "" || t <= s;
  }

  /** A name counts as that of a case exactly when it is `case-`, anything, and `.json`, and has `.tmp-` nowhere in it. */
  lemma CaseNameExactly(name: string)
    ensures IsCaseName(name) <==>
      && |name| >= 5 && name[..5] == "case-" && name[|name| - 5..] == ".json"
      && !(exists before: string, after: string :: name == before + (".tmp-" + after))
  {
    ContainsExactly(name, INFIX);
  }

  lemma {:induction false} NoInfix(s: string)
    requires forall i :: 0 <= i < |s| - 1 && s[i] == '.' ==> s[i + 1] == 'j'
    ensures !Contains(s, INFIX)
    decreases |s|
  {
    if INFIX <= s {
      InfixHead(s);
    }
    if s != "" {
      NoInfix(s[1..]);
    }
  }

  lemma InfixHead(s: string)
    requires INFIX <= s
    ensures |s| >= 2 && s[0] == '.' && s[1] == 't'
  {
    assert s[0] == INFIX[0] && s[1] == INFIX[1];
  }

  lemma CaseNameIsOne(n: nat)
    ensures IsCaseName(CaseName(n))
  {
    var name, digits := CaseName(n), Padded(n);
    assert name[|name| - |SUFFIX|..] == SUFFIX;
    forall i | 0 <= i < |name| - 1 && name[i] == '.' ensures name[i + 1] == 'j' {
      DotInName(n, i);
    }
    NoInfix(name);
  }

  lemma DotInName(n: nat, i: nat)
    requires i < |CaseName(n)| && CaseName(n)[i] == '.'
    ensures i == |CaseName(n)| - |SUFFIX|
  {
    var name, digits := CaseName(n), Padded(n);
    assert name == PREFIX + digits + SUFFIX;
  }

  lemma TemporaryIsNoCase(temp: string, name: string)
    requires TemporaryFor(temp, name)
    ensures !IsCaseName(temp)
  {
    TemporaryIsNotNumbered(PREFIX, temp, name);
  }

  // ---- what a directory holds -----------------------------------------------

  /** The names of the case files. */
  function CaseNames(files: Files, root: string): set<string> {
    set p | p in files && p.0 == root && IsCaseName(p.1) :: p.1
  }

  /** The names of the first `n` cases, in the order of their numbers. */
  function FirstNames(n: nat): (names: seq<string>)
    ensures |names| == n && forall i :: 0 <= i < n ==> names[i] == CaseName(i + 1)
  {
    seq(n, i requires 0 <= i < n => CaseName(i + 1))
  }

  /** The directory holds exactly these entries, numbered from one. */
  ghost predicate Holds(files: Files, root: string, entries: seq<Entry>) {
    var names := FirstNames(|entries|);
    && (forall i :: 0 <= i < |entries| ==> (root, names[i]) in files && files[(root, names[i])] == Whole(entries[i]))
    && forall name :: name in CaseNames(files, root) <==> name in names
  }

  ghost predicate Ascending(s: seq<string>) {
    forall i, j :: 0 <= i < j < |s| ==> LessEq(s[i], s[j]) && s[i] != s[j]
  }

  /** There is only one way to sort. */
  lemma {:induction false} SortedUnique(a: seq<string>, b: seq<string>)
    requires Ascending(a) && Ascending(b) && forall x :: x in a <==> x in b
    ensures a == b
    decreases |a|
  {
    assert b != [] ==> b[0] in b;
    if a != [] {
      assert a[0] in b;
      var i :| 0 <= i < |b| && b[i] == a[0];
      assert b[0] in a;
      var j :| 0 <= j < |a| && a[j] == b[0];
      if i > 0 && j > 0 { LessEqAntisymmetric(a[0], b[0]); }
      forall x ensures x in a[1..] <==> x in b[1..] {
        RestHas(a, x);
        RestHas(b, x);
      }
      SortedUnique(a[1..], b[1..]);
      assert a == [a[0]] + a[1..] && b == [b[0]] + b[1..];
    }
  }

  lemma RestHas(s: seq<string>, x: string)
    requires Ascending(s) && s != []
    ensures x in s[1..] <==> x in s && x != s[0]
  {
    if x in s[1..] {
      var i :| 0 <= i < |s[1..]| && s[1..][i] == x;
      assert s[i + 1] == x;
    }
  }

  lemma FirstNamesAscend(n: nat)
    requires n < 100000
    ensures Ascending(FirstNames(n))
  {
    forall i, j | 0 <= i < j < n ensures LessEq(FirstNames(n)[i], FirstNames(n)[j]) && FirstNames(n)[i] != FirstNames(n)[j] {
      NamesInOrder(PREFIX, i + 1, j + 1);
    }
  }

  lemma FirstNamesDescend(n: nat)
    requires n >= 100000
    ensures !Ascending(FirstNames(n))
  {
    OrderBreaks(PREFIX);
    var names := FirstNames(n);
    assert names[99998] == CaseName(99999) && names[99999] == CaseName(100000);
    if Ascending(names) {
      LessEqAntisymmetric(CaseName(99999), CaseName(100000));
    }
  }

  /** Sorting the names of a corpus gives its cases in the order they were appended exactly up to 99,999 of them. */
  lemma SortedIsAppendOrder(files: Files, root: string, entries: seq<Entry>)
    requires Holds(files, root, entries)
    ensures Sorted(CaseNames(files, root)) == FirstNames(|entries|) <==> |entries| < 100000
  {
    var names := FirstNames(|entries|);
    var sorted := Sorted(CaseNames(files, root));
    if |entries| < 100000 {
      FirstNamesAscend(|entries|);
      SortedUnique(sorted, names);
    } else {
      FirstNamesDescend(|entries|);
    }
  }

  // ---- appending, and crashes while appending ---------------------------------

  lemma CaseNamesDiffer(m: nat, n: nat)
    ensures CaseName(m) == CaseName(n) ==> m == n
  {
    NumberOfName(PREFIX, m);
    NumberOfName(PREFIX, n);
  }

  lemma NewName(n: nat, i: nat)
    requires i < n
    ensures FirstNames(n)[i] != CaseName(n + 1)
  {
    hide CaseName;
    CaseNamesDiffer(i + 1, n + 1);
  }

  /** Nothing that happens to a temporary file changes what the directory holds. */
  lemma HoldsStill(files: Files, files': Files, root: string, entries: seq<Entry>, temp: string)
    requires Holds(files, root, entries) && !IsCaseName(temp)
    requires forall p :: p != (root, temp) ==> (p in files' <==> p in files) && (p in files ==> files'[p] == files[p])
    ensures Holds(files', root, entries)
  {
    var names := FirstNames(|entries|);
    forall i | 0 <= i < |entries| ensures (root, names[i]) in files' && files'[(root, names[i])] == files[(root, names[i])] {
      CaseNameIsOne(i + 1);
    }
    forall name ensures name in CaseNames(files', root) <==> name in CaseNames(files, root) {
      assert IsCaseName(name) ==> ((root, name) in files' <==> (root, name) in files);
    }
  }

  /** A crash before the rename loses the new case and nothing else. */
  lemma CrashKeepsEntries(files: Files, root: string, entries: seq<Entry>, n: nat, temp: string, e: Entry, at: nat)
    requires Holds(files, root, entries) && TemporaryFor(temp, CaseName(n)) && at < 3
    ensures Holds(Boundaries(files, (root, CaseName(n)), temp, e)[at], root, entries)
  {
    TemporaryIsNoCase(temp, CaseName(n));
    HoldsStill(files, Boundaries(files, (root, CaseName(n)), temp, e)[at], root, entries, temp);
  }

  /** The rename adds the new case at the end. */
  lemma RenameAppends(files: Files, root: string, entries: seq<Entry>, temp: string, e: Entry)
    requires Holds(files, root, entries) && TemporaryFor(temp, CaseName(|entries| + 1))
    ensures Holds(Replaced(files, (root, CaseName(|entries| + 1)), temp, e), root, entries + [e])
  {
    var n := |entries|;
    var without := files - {(root, temp)};
    TemporaryIsNoCase(temp, CaseName(n + 1));
    HoldsStill(files, without, root, entries, temp);
    PutAppends(without, root, entries, e);
  }

  lemma PutAppends(files: Files, root: string, entries: seq<Entry>, e: Entry)
    requires Holds(files, root, entries)
    ensures Holds(files[(root, CaseName(|entries| + 1)) := Whole(e)], root, entries + [e])
  {
    hide CaseName, IsCaseName;
    var n := |entries|;
    var files', names := files[(root, CaseName(n + 1)) := Whole(e)], FirstNames(n + 1);
    assert names == FirstNames(n) + [CaseName(n + 1)];
    CaseNameIsOne(n + 1);
    forall i | 0 <= i < n + 1 ensures (root, names[i]) in files' && files'[(root, names[i])] == Whole((entries + [e])[i]) {
      PutKeeps(files, root, entries, e, i);
    }
    forall name ensures name in CaseNames(files', root) <==> name in names {
      NamesGrow(files, files', root, n, name);
    }
  }

  lemma PutKeeps(files: Files, root: string, entries: seq<Entry>, e: Entry, i: nat)
    requires Holds(files, root, entries) && i <= |entries|
    ensures
      var n, name := |entries|, FirstNames(|entries| + 1)[i];
      var files' := files[(root, CaseName(n + 1)) := Whole(e)];
      (root, name) in files' && files'[(root, name)] == Whole((entries + [e])[i])
  {
    if i < |entries| {
      NewName(|entries|, i);
      assert (root, FirstNames(|entries|)[i]) in files;
    }
  }

  lemma NamesGrow(files: Files, files': Files, root: string, n: nat, name: string)
    requires (root, CaseName(n + 1)) in files' && IsCaseName(CaseName(n + 1))
    requires forall p :: p in files' <==> p in files || p == (root, CaseName(n + 1))
    ensures name in CaseNames(files', root) <==> name in CaseNames(files, root) || name == CaseName(n + 1)
  {
    assert (root, name) in files' <==> (root, name) in files || name == CaseName(n + 1);
  }

  // ---- the corpus -----------------------------------------------------------

  function CasesOf(entries: seq<Entry>): seq<Case> {
    seq(|entries|, i requires 0 <= i < |entries| => entries[i].c)
  }

  lemma CasesAppend(entries: seq<Entry>, e: Entry)
    ensures CasesOf(entries + [e]) == CasesOf(entries) + [e.c]
  {
  }

  function SponsorsOf(entries: seq<Entry>): seq<string> {
    seq(|entries|, i requires 0 <= i < |entries| => entries[i].sponsor)
  }

  /** The entries in these files, in this order; nothing when one of them cannot be read. */
  function ReadAll(files: Files, root: string, names: seq<string>): Option<seq<Entry>>
    requires forall name :: name in names ==> (root, name) in files
  {
    if names == [] then Some([])
    else
      var last := names[|names| - 1];
      assert forall name :: name in names[..|names| - 1] ==> name in names;
      var before, content := ReadAll(files, root, names[..|names| - 1]), files[(root, last)];
      if before.Some? && content.Whole? then Some(before.value + [content.data]) else None
  }

  /** They are read exactly when every one of them is whole, and then they are what stands there. */
  lemma {:induction false} ReadAllExactly(files: Files, root: string, names: seq<string>)
    requires forall name :: name in names ==> (root, name) in files
    ensures ReadAll(files, root, names).Some? <==> forall name :: name in names ==> files[(root, name)].Whole?
    ensures ReadAll(files, root, names).Some? ==>
      var read := ReadAll(files, root, names).value;
      |read| == |names| && forall i :: 0 <= i < |names| ==> files[(root, names[i])] == Whole(read[i])
    decreases |names|
  {
    if names != [] {
      var n := |names| - 1;
      assert names == names[..n] + [names[n]];
      ReadAllExactly(files, root, names[..n]);
    }
  }

  function Loaded(files: Files, root: string): Option<seq<Entry>> {
    ReadAll(files, root, Sorted(CaseNames(files, root)))
  }

  /** The entries are what stands in these files. */
  ghost predicate Match(files: Files, root: string, names: seq<string>, entries: seq<Entry>) {
    |names| == |entries|
    && forall i :: 0 <= i < |names| ==> (root, names[i]) in files && files[(root, names[i])] == Whole(entries[i])
  }

  lemma {:induction false} MatchIsRead(files: Files, root: string, names: seq<string>, entries: seq<Entry>)
    requires Match(files, root, names, entries)
    requires forall name :: name in names ==> (root, name) in files
    ensures ReadAll(files, root, names) == Some(entries)
    decreases |names|
  {
    if names != [] {
      var n := |names| - 1;
      assert forall name :: name in names[..n] ==> name in names;
      MatchIsRead(files, root, names[..n], entries[..n]);
      assert entries == entries[..n] + [entries[n]];
    }
  }

  /** Reading a corpus back gives what was appended, in order, up to 99,999 cases. */
  lemma ReadBack(files: Files, root: string, entries: seq<Entry>)
    requires Holds(files, root, entries) && |entries| < 100000
    ensures Loaded(files, root) == Some(entries)
  {
    SortedIsAppendOrder(files, root, entries);
    MatchIsRead(files, root, FirstNames(|entries|), entries);
  }

  class FileRegressionCorpus {
    const disk: Disk<Entry>
    const root: string
    const digest: Digest
    const strip: string -> string
    var cache: Option<seq<Entry>>
    ghost var entries: seq<Entry>

    ghost predicate Valid()
      reads this, disk
    {
      && Holds(disk.files, root, entries) && Chained(digest, CasesOf(entries))
      && (cache.Some? ==> cache.value == entries)
    }

    /** A new corpus over a directory that already holds these entries. */
    constructor (disk: Disk<Entry>, root: string, digest: Digest, strip: string -> string, ghost entries: seq<Entry>)
      requires Holds(disk.files, root, entries) && Chained(digest, CasesOf(entries))
      ensures Valid() && this.entries == entries && cache.None?
      ensures this.disk == disk && this.root == root && this.digest == digest && this.strip == strip
    {
      this.disk, this.root, this.digest, this.strip := disk, root, digest, strip;
      this.entries, cache := entries, None;
    }

    /** Every case file in the order of its name, whatever is in the directory. */
    method LoadFromDisk() returns (loaded: Option<seq<Entry>>)
      ensures loaded == Loaded(disk.files, root)
    {
      var files, names := disk.files, Sorted(CaseNames(disk.files, root));
      assert forall name :: name in names ==> (root, name) in files;
      var found: seq<Entry> := [];
      for i := 0 to |names|
        invariant FirstRead(files, names, i) == Some(found)
      {
        assert names[i] in names;
        var content := files[(root, names[i])];
        NextRead(files, names, i);
        if content.Torn? {
          Unread(files, names, i);
          return None;
        }
        found := found + [content.data];
      }
      assert names[..|names|] == names;
      return Some(found);
    }

    ghost function FirstRead(files: Files, names: seq<string>, i: nat): Option<seq<Entry>>
      requires i <= |names| && forall name :: name in names ==> (root, name) in files
    {
      ReadAll(files, root, names[..i])
    }

    lemma NextRead(files: Files, names: seq<string>, i: nat)
      requires i < |names| && forall name :: name in names ==> (root, name) in files
      requires FirstRead(files, names, i).Some?
      ensures
        var content := files[(root, names[i])];
        content.Whole? ==> FirstRead(files, names, i + 1) == Some(FirstRead(files, names, i).value + [content.data])
    {
      assert names[..i + 1][..i] == names[..i];
    }

    lemma {:induction false} Unread(files: Files, names: seq<string>, i: nat)
      requires forall name :: name in names ==> (root, name) in files
      requires i < |names| && files[(root, names[i])].Torn?
      ensures ReadAll(files, root, names).None?
      decreases |names|
    {
      var n := |names| - 1;
      assert forall name :: name in names[..n] ==> name in names;
      if i < n {
        Unread(files, names[..n], i);
      }
    }

    /** What was appended is read back in order, by this corpus or by a new one over the same directory. */
    method Entries() returns (read: Option<seq<Entry>>)
      requires Valid() && (cache.Some? || |entries| < 100000)
      modifies this`cache
      ensures Valid() && read == Some(entries) && cache == read
    {
      if cache.None? {
        ReadBack(disk.files, root, entries);
        cache := LoadFromDisk();
      }
      read := cache;
    }

    /** The sponsors, in the order of the cases they vouched for. */
    method Sponsors() returns (sponsors: seq<string>)
      requires Valid() && (cache.Some? || |entries| < 100000)
      modifies this`cache
      ensures Valid() && sponsors == SponsorsOf(entries)
    {
      var read := Entries();
      sponsors := SponsorsOf(read.value);
    }

    /** Why an append is refused, if it is. */
    method Refusal(c: Case, sponsor: string, cases: seq<Case>) returns (refused: Option<Error>)
      ensures refused.None? <==> strip(sponsor) != "" && Links(digest, c, Root(cases))
    {
      if strip(sponsor) == "" {
        return Some(BlankSponsor);
      }
      if c.predecessor != Root(cases) {
        return Some(WrongPredecessor);
      }
      if digest(c.content, c.predecessor) != c.hash {
        return Some(WrongHash);
      }
      return None;
    }

    method Append(c: Case, sponsor: string, temp: string) returns (refused: Option<Error>)
      requires Valid() && (cache.Some? || |entries| < 100000) && TemporaryFor(temp, CaseName(|entries| + 1))
      modifies this`cache, this`entries, disk
      ensures Valid() && cache.Some?
      ensures refused.None? <==> strip(sponsor) != "" && Links(digest, c, Root(CasesOf(old(entries))))
      ensures entries == old(entries) + if refused.None? then [Entry(c, strip(sponsor))] else []
      ensures refused.Some? ==> disk.files == old(disk.files)
    {
      hide Holds, Chained, CaseName;
      var read := Entries();
      refused := Refusal(c, sponsor, CasesOf(read.value));
      if refused.None? {
        Write(Entry(c, strip(sponsor)), temp);
      }
    }

    /** The file first, then the cache. */
    method Write(e: Entry, temp: string)
      requires Valid() && cache.Some? && TemporaryFor(temp, CaseName(|entries| + 1))
      requires Links(digest, e.c, Root(CasesOf(entries)))
      modifies this`cache, this`entries, disk
      ensures Valid() && entries == old(entries) + [e] && cache.Some?
      ensures disk.files == Replaced(old(disk.files), (root, CaseName(|old(entries)| + 1)), temp, e)
    {
      hide Holds, Chained, CaseName, CasesOf;
      RenameAppends(disk.files, root, entries, temp, e);
      AppendLinks(digest, CasesOf(entries), e.c);
      CasesAppend(entries, e);
      ghost var _ := disk.AtomicWrite((root, CaseName(|cache.value| + 1)), temp, e);
      cache := Some(cache.value + [e]);
      entries := entries + [e];
    }

    /** Always reads the directory, whatever the cache holds, and accepts exactly a readable, unbroken chain. */
    method Verify() returns (broken: Option<Error>)
      ensures broken.None? <==> Loaded(disk.files, root).Some? && Chained(digest, CasesOf(Loaded(disk.files, root).value))
    {
      var loaded := LoadFromDisk();
      if loaded.None? {
        return Some(Unreadable);
      }
      broken := WalkChain(digest, CasesOf(loaded.value));
    }
  }

  /** Up to 99,999 cases a corpus that was only appended to verifies, and its root stands for all of it. */
  lemma AppendedVerifies(digest: Digest, files: Files, root: string, entries: seq<Entry>)
    requires Holds(files, root, entries) && Chained(digest, CasesOf(entries)) && |entries| < 100000
    ensures Loaded(files, root) == Some(entries) && Chained(digest, CasesOf(Loaded(files, root).value))
  {
    ReadBack(files, root, entries);
  }

  // ---- what a corpus that was only appended to reads back --------------------

  /** What stands in the files of these names. */
  function DataOf(files: Files, root: string, names: seq<string>): seq<Entry>
    requires forall i :: 0 <= i < |names| ==> (root, names[i]) in files && files[(root, names[i])].Whole?
  {
    seq(|names|, i requires 0 <= i < |names| => files[(root, names[i])].data)
  }

  /** Reading back never fails: it gives the entries, each under some number, in the order of the names. */
  lemma LoadedIsRead(files: Files, root: string, entries: seq<Entry>) returns (sorted: seq<string>, read: seq<Entry>)
    requires Holds(files, root, entries)
    ensures Loaded(files, root) == Some(read) && sorted == Sorted(CaseNames(files, root)) && |read| == |sorted|
    ensures forall i :: 0 <= i < |sorted| ==> sorted[i] in FirstNames(|entries|) && read[i] in entries
    ensures forall i, j :: 0 <= i < |sorted| && 0 <= j < |entries| && sorted[i] == FirstNames(|entries|)[j] ==> read[i] == entries[j]
  {
    SortedNames(files, root, entries);
    hide CaseName, Holds, FirstNames, Ascending;
    sorted := Sorted(CaseNames(files, root));
    forall i | 0 <= i < |sorted|
      ensures (root, sorted[i]) in files && files[(root, sorted[i])].Whole? && files[(root, sorted[i])].data in entries
    {
      var k := NameIndex(|entries|, sorted[i]);
      EntryHeld(files, root, entries, k);
    }
    read := DataOf(files, root, sorted);
    forall i, j | 0 <= i < |sorted| && 0 <= j < |entries| && sorted[i] == FirstNames(|entries|)[j] ensures read[i] == entries[j] {
      EntryHeld(files, root, entries, j);
    }
    MatchIsRead(files, root, sorted, read);
  }

  lemma EntryHeld(files: Files, root: string, entries: seq<Entry>, k: nat)
    requires Holds(files, root, entries) && k < |entries|
    ensures var name := FirstNames(|entries|)[k]; (root, name) in files && files[(root, name)] == Whole(entries[k])
  {
  }

  /** If the cases come back in their order, the names did. */
  lemma InOrder(digest: Digest, files: Files, root: string, entries: seq<Entry>, sorted: seq<string>, read: seq<Entry>, i: nat)
    requires Sound(digest) && Chained(digest, CasesOf(entries)) && CasesOf(read) <= CasesOf(entries)
    requires |read| == |sorted| && i < |sorted| && sorted[i] in FirstNames(|entries|)
    requires forall i, j :: 0 <= i < |sorted| && 0 <= j < |entries| && sorted[i] == FirstNames(|entries|)[j] ==> read[i] == entries[j]
    ensures i < |entries| && sorted[i] == FirstNames(|entries|)[i]
  {
    hide Sound, Chained, CaseName;
    var j := NameIndex(|entries|, sorted[i]);
    assert read[i] == entries[j];
    assert CasesOf(read)[i] == CasesOf(entries)[i];
    if i < j { HashesDiffer(digest, CasesOf(entries), i, j); }
    if j < i { HashesDiffer(digest, CasesOf(entries), j, i); }
  }

  lemma AllInOrder(sorted: seq<string>, n: nat)
    requires |sorted| <= n && (forall i :: 0 <= i < |sorted| ==> sorted[i] == FirstNames(n)[i])
    requires forall name :: name in FirstNames(n) ==> name in sorted
    ensures sorted == FirstNames(n)
  {
    hide CaseName;
    if |sorted| < n {
      HasName(n, n - 1);
      var k :| 0 <= k < |sorted| && sorted[k] == CaseName(n - 1 + 1);
      CaseNamesDiffer(k + 1, n);
    }
  }

  /** A corpus that was only appended to comes back as it was exactly up to 99,999 cases, and exactly up to there does
      what comes back verify: longer ones come back in an order that is no chain. */
  lemma LoadedExactly(digest: Digest, files: Files, root: string, entries: seq<Entry>)
    requires Sound(digest) && Holds(files, root, entries) && Chained(digest, CasesOf(entries))
    ensures Loaded(files, root).Some?
    ensures Loaded(files, root) == Some(entries) <==> |entries| < 100000
    ensures Chained(digest, CasesOf(Loaded(files, root).value)) <==> |entries| < 100000
  {
    var sorted, read := LoadedIsRead(files, root, entries);
    if |entries| < 100000 {
      ReadBack(files, root, entries);
    } else {
      SortedNames(files, root, entries);
      SortedIsAppendOrder(files, root, entries);
      LongIsBroken(digest, files, root, entries, sorted, read);
    }
  }

  lemma LongIsBroken(digest: Digest, files: Files, root: string, entries: seq<Entry>, sorted: seq<string>, read: seq<Entry>)
    requires Sound(digest) && Chained(digest, CasesOf(entries)) && |read| == |sorted|
    requires forall i :: 0 <= i < |sorted| ==> sorted[i] in FirstNames(|entries|) && read[i] in entries
    requires forall i, j :: 0 <= i < |sorted| && 0 <= j < |entries| && sorted[i] == FirstNames(|entries|)[j] ==> read[i] == entries[j]
    requires forall name :: name in FirstNames(|entries|) ==> name in sorted
    requires sorted != FirstNames(|entries|)
    ensures !Chained(digest, CasesOf(read))
  {
    hide Sound, Chained, CaseName, FirstNames;
    if Chained(digest, CasesOf(read)) {
      CasesAreAmong(entries, read);
      ChainIsRigid(digest, CasesOf(entries), CasesOf(read));
      forall i: nat | i < |sorted| ensures i < |entries| && sorted[i] == FirstNames(|entries|)[i] {
        InOrder(digest, files, root, entries, sorted, read, i);
      }
      AllInOrder(sorted, |entries|);
    }
  }

  lemma CasesAreAmong(entries: seq<Entry>, read: seq<Entry>)
    requires forall i :: 0 <= i < |read| ==> read[i] in entries
    ensures forall c :: c in CasesOf(read) ==> c in CasesOf(entries)
  {
    forall c | c in CasesOf(read) ensures c in CasesOf(entries) {
      var i :| 0 <= i < |read| && CasesOf(read)[i] == c;
      var j :| 0 <= j < |entries| && entries[j] == read[i];
      assert CasesOf(entries)[j] == c;
    }
  }

  // ---- histories with crashes -----------------------------------------------

  /** An append by a corpus opened anew, and how many of its file operations were reached before the process died. */
  datatype Appended = Appended(e: Entry, temp: string, reached: nat)

  /** The directory after it. */
  function Next(digest: Digest, root: string, files: Files, a: Appended): Files {
    var read := Loaded(files, root);
    if read.None? || !Links(digest, a.e.c, Root(CasesOf(read.value))) then files
    else
      var path := (root, CaseName(|read.value| + 1));
      if a.reached < 3 then Boundaries(files, path, a.temp, a.e)[a.reached] else Replaced(files, path, a.temp, a.e)
  }

  function FilesAfter(digest: Digest, root: string, history: seq<Appended>): Files {
    if history == [] then map[]
    else Next(digest, root, FilesAfter(digest, root, history[..|history| - 1]), history[|history| - 1])
  }

  /** The entries that an in-memory corpus holds after the appends that were finished. */
  function EntriesAfter(digest: Digest, history: seq<Appended>): seq<Entry> {
    if history == [] then []
    else
      var before, a := EntriesAfter(digest, history[..|history| - 1]), history[|history| - 1];
      if a.reached >= 3 && Links(digest, a.e.c, Root(CasesOf(before))) then before + [a.e] else before
  }

  ghost predicate ProperTemps(digest: Digest, history: seq<Appended>) {
    forall i :: 0 <= i < |history| ==> TemporaryFor(history[i].temp, CaseName(|EntriesAfter(digest, history[..i])| + 1))
  }

  /** Over any history of appends, refusals, crashes and reopenings, as long as there are fewer than 100,000 cases: the
      directory holds exactly the finished appends, in order, and they are a chain that is read back as it is. */
  lemma {:induction false} FilesRefineEntries(digest: Digest, root: string, history: seq<Appended>)
    requires ProperTemps(digest, history) && |EntriesAfter(digest, history)| < 100000
    ensures
      var files, entries := FilesAfter(digest, root, history), EntriesAfter(digest, history);
      Holds(files, root, entries) && Chained(digest, CasesOf(entries)) && Loaded(files, root) == Some(entries)
    decreases |history|
  {
    hide Holds, Chained, Loaded, CaseName, TemporaryFor;
    if history == [] {
      NothingHeld(digest, root);
    } else {
      var n := |history| - 1;
      var before, a := history[..n], history[n];
      EarlierTemps(digest, history);
      FilesRefineEntries(digest, root, before);
      NextRefines(digest, root, FilesAfter(digest, root, before), EntriesAfter(digest, before), a);
    }
    ReadBack(FilesAfter(digest, root, history), root, EntriesAfter(digest, history));
  }

  lemma EarlierTemps(digest: Digest, history: seq<Appended>)
    requires history != [] && ProperTemps(digest, history)
    ensures ProperTemps(digest, history[..|history| - 1])
    ensures TemporaryFor(history[|history| - 1].temp, CaseName(|EntriesAfter(digest, history[..|history| - 1])| + 1))
  {
    hide TemporaryFor, CaseName, EntriesAfter;
    var before := history[..|history| - 1];
    forall i | 0 <= i < |before| ensures TemporaryFor(before[i].temp, CaseName(|EntriesAfter(digest, before[..i])| + 1)) {
      assert before[..i] == history[..i];
      assert before[i] == history[i];
    }
  }

  lemma NothingHeld(digest: Digest, root: string)
    ensures Holds(map[], root, []) && Chained(digest, CasesOf([]))
  {
  }

  lemma NextRefines(digest: Digest, root: string, files: Files, entries: seq<Entry>, a: Appended)
    requires Holds(files, root, entries) && Chained(digest, CasesOf(entries)) && Loaded(files, root) == Some(entries)
    requires TemporaryFor(a.temp, CaseName(|entries| + 1))
    ensures
      var entries' := if a.reached >= 3 && Links(digest, a.e.c, Root(CasesOf(entries))) then entries + [a.e] else entries;
      Holds(Next(digest, root, files, a), root, entries') && Chained(digest, CasesOf(entries'))
  {
    hide Holds, Chained, Loaded, CaseName, TemporaryFor;
    if Links(digest, a.e.c, Root(CasesOf(entries))) {
      if a.reached < 3 {
        CrashKeepsEntries(files, root, entries, |entries| + 1, a.temp, a.e, a.reached);
      } else {
        RenameAppends(files, root, entries, a.temp, a.e);
        CasesAppend(entries, a.e);
        AppendLinks(digest, CasesOf(entries), a.e.c);
      }
    }
  }

  // ---- a hundred thousand cases ---------------------------------------------

  lemma {:induction false} LastRead(files: Files, root: string, names: seq<string>, entries: seq<Entry>)
    requires names != [] && forall name :: name in names ==> (root, name) in files
    requires ReadAll(files, root, names) == Some(entries)
    ensures entries != [] && files[(root, names[|names| - 1])] == Whole(entries[|entries| - 1])
  {
  }

  /** In a chain no two cases have one hash. */
  lemma HashesDiffer(digest: Digest, cases: seq<Case>, i: nat, j: nat)
    requires Sound(digest) && Chained(digest, cases) && i < j < |cases|
    ensures cases[i].hash != cases[j].hash
  {
    hide Sound, Chained;
    PrefixChained(digest, cases, i + 1);
    PrefixChained(digest, cases, j + 1);
    if cases[i].hash == cases[j].hash {
      RootDeterminesHistory(digest, cases[..i + 1], cases[..j + 1]);
    }
  }

  lemma HasName(n: nat, i: nat)
    requires i < n
    ensures CaseName(i + 1) in FirstNames(n)
  {
    assert FirstNames(n)[i] in FirstNames(n);
  }

  lemma NameIndex(n: nat, name: string) returns (i: nat)
    requires name in FirstNames(n)
    ensures i < n && name == CaseName(i + 1) && FirstNames(n)[i] == name
  {
    hide CaseName;
    i :| 0 <= i < n && FirstNames(n)[i] == name;
  }

  lemma SortedNames(files: Files, root: string, entries: seq<Entry>)
    requires Holds(files, root, entries)
    ensures
      var sorted := Sorted(CaseNames(files, root));
      Ascending(sorted) && forall name :: name in sorted <==> name in FirstNames(|entries|)
  {
    hide CaseName;
  }

  /** The name that sorts last is not the newest one. */
  lemma NewestIsNotLast(files: Files, root: string, entries: seq<Entry>) returns (i: nat)
    requires Holds(files, root, entries) && |entries| == 100000
    ensures i < |entries| - 1 && |Sorted(CaseNames(files, root))| > 0
    ensures var sorted := Sorted(CaseNames(files, root)); sorted[|sorted| - 1] == FirstNames(|entries|)[i]
  {
    hide CaseName, LessEq, Holds, Ascending, FirstNames, CaseNames, Sorted;
    var n := |entries|;
    SortedNames(files, root, entries);
    HasName(n, n - 2);
    var sorted := Sorted(CaseNames(files, root));
    i := NameIndex(n, sorted[|sorted| - 1]);
    LargestIsLast(sorted, n);
  }

  lemma LargestIsLast(sorted: seq<string>, n: nat)
    requires Ascending(sorted) && n == 100000 && CaseName(n - 1) in sorted
    ensures sorted[|sorted| - 1] != CaseName(n)
  {
    OrderBreaks(PREFIX);
    CaseNamesDiffer(n - 1, n);
    OneAboveTheOther(sorted, CaseName(n - 1), CaseName(n));
  }

  lemma OneAboveTheOther(sorted: seq<string>, x: string, y: string)
    requires Ascending(sorted) && x in sorted && LessEq(y, x) && x != y
    ensures sorted[|sorted| - 1] != y
  {
    hide LessEq;
    if sorted[|sorted| - 1] == y {
      assert LessEq(x, y);
      LessEqAntisymmetric(x, y);
    }
  }

  /** With 100,000 cases a corpus that is opened anew takes an older case for its newest, and refuses the one
      that continues it. */
  lemma ReopenedRefusesNext(digest: Digest, files: Files, root: string, entries: seq<Entry>, read: seq<Entry>, c: Case)
    requires Sound(digest) && Holds(files, root, entries) && Chained(digest, CasesOf(entries)) && |entries| == 100000
    requires Loaded(files, root) == Some(read) && Links(digest, c, Root(CasesOf(entries)))
    ensures !Links(digest, c, Root(CasesOf(read)))
  {
    hide Holds, Chained, Sound, CaseName, Sorted, CaseNames, ReadAll, FirstNames;
    var i := NewestIsNotLast(files, root, entries);
    LastIsEntry(files, root, entries, read, i);
    HashesDiffer(digest, CasesOf(entries), i, |entries| - 1);
  }

  lemma LastIsEntry(files: Files, root: string, entries: seq<Entry>, read: seq<Entry>, i: nat)
    requires Holds(files, root, entries) && Loaded(files, root) == Some(read) && i < |entries|
    requires var sorted := Sorted(CaseNames(files, root)); sorted != [] && sorted[|sorted| - 1] == FirstNames(|entries|)[i]
    ensures read != [] && read[|read| - 1] == entries[i]
  {
    hide CaseName, CaseNames;
    LastRead(files, root, Sorted(CaseNames(files, root)), read);
  }
}
