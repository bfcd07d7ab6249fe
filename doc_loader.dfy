/** The demo document loader of the retrieval pipeline: text files are cut
    into line groups under a running length budget, each group becomes one
    chunk with a per-file id and the file's title, and the built-in
    documents stand in when nothing is found. Reading the directory is I/O:
    the walk arrives as a list of entries, already in sorted path order. */
module DocLoading {
  import opened Common

  datatype DocumentChunk = DocumentChunk(docId: string, title: string, text: string)

  /** The two documents served when the directory is missing or empty. */
  const DefaultDocs: seq<DocumentChunk> := [
    DocumentChunk(
      "project_overview",
      "Project Overview",
      "Nebula SIWI Bot is a ChatBot and lightweight RAG service. "
      + "It ships with a Python backend and a modern frontend, and works out of the box without NebulaGraph. "
      + "Graph experiments remain available as an optional module."),
    DocumentChunk(
      "usage",
      "Usage",
      "Run the backend, then call POST /api/chat with a message to receive an answer with sources. "
      + "RAG uses local demo documents by default. "
      + "You can add more files under data/demo_docs to change the retrieval set.")
  ]

  /** One entry of the directory walk: its final path component, whether it
      is a directory, and (for files) its text. */
  datatype Entry = Entry(name: string, isDir: bool, text: string)

  // ------------------------------------------------------------ line splitting

  /** The characters `str.splitlines` breaks at. */
  predicate IsLineBreak(c: char) {
    c == '\n' || c == '\r' || c == '\U{000B}' || c == '\U{000C}' || c == '\U{001C}' || c == '\U{001D}'
    || c == '\U{001E}' || c == '\U{0085}' || c == '\U{2028}' || c == '\U{2029}'
  }

  /** The length of the first line of `s`, up to the first break. */
  function LineEnd(s: string): (n: nat)
    ensures n <= |s|
    ensures forall i | 0 <= i < n :: !IsLineBreak(s[i])
    ensures n < |s| ==> IsLineBreak(s[n])
  {
    if s == [] || IsLineBreak(s[0]) then 0 else 1 + LineEnd(s[1..])
  }

  /** `s.splitlines()`: "\r\n" is one break, and a break at the very end
      opens no further line. */
  function SplitLines(s: string): seq<string>
    decreases |s|
  {
    if s == [] then []
    else
      var n := LineEnd(s);
      if n == |s| then [s]
      else
        var next := if s[n] == '\r' && n + 1 < |s| && s[n + 1] == '\n' then n + 2 else n + 1;
        [s[..n]] + SplitLines(s[next..])
  }

  // ------------------------------------------------------------ text chunking

  /** `sum(len(x) for x in xs)`. */
  function SumLen(xs: seq<string>): nat {
    if xs == [] then 0 else SumLen(xs[..|xs| - 1]) + |xs[|xs| - 1]|
  }

  /** The stripped non-blank lines, in order: the file's content as the
      chunker and the title rule see it. */
  function NonBlank(lines: seq<string>): (r: seq<string>)
    ensures |r| <= |lines|
    ensures forall i | 0 <= i < |r| :: r[i] != ""
  {
    if lines == [] then []
    else
      var prev := NonBlank(lines[..|lines| - 1]);
      var stripped := Strip(lines[|lines| - 1]);
      if stripped == "" then prev else prev + [stripped]
  }

  function Flatten(groups: seq<seq<string>>): seq<string> {
    if groups == [] then [] else Flatten(groups[..|groups| - 1]) + groups[|groups| - 1]
  }

  /** The chunker's state between lines: the closed groups and the open one. */
  datatype SplitState = SplitState(closed: seq<seq<string>>, current: seq<string>)

  /** One line of the chunking loop: a blank line closes the open group; any
      other line joins it, stripped, and closes it once the group's length
      reaches the budget. */
  function Step(st: SplitState, line: string, chunkSize: int): SplitState {
    var stripped := Strip(line);
    if stripped == "" then
      if st.current != [] then SplitState(st.closed + [st.current], []) else st
    else
      var current := st.current + [stripped];
      if SumLen(current) >= chunkSize then SplitState(st.closed + [current], [])
      else SplitState(st.closed, current)
  }

  function Fold(lines: seq<string>, chunkSize: int): SplitState {
    if lines == [] then SplitState([], [])
    else Step(Fold(lines[..|lines| - 1], chunkSize), lines[|lines| - 1], chunkSize)
  }

  /** The body of `_split_text`'s loop for one line, on the parts emitted
      so far (the closed groups joined) and the open group. */
  method SplitStep(parts: seq<string>, current: seq<string>, line: string, chunkSize: int, ghost closed: seq<seq<string>>)
    returns (parts': seq<string>, current': seq<string>)
    requires parts == Joined(closed)
    ensures var st := Step(SplitState(closed, current), line, chunkSize);
      current' == st.current && parts' == Joined(st.closed)
  {
    parts', current' := parts, current;
    var stripped := Strip(line);
    if stripped == "" {
      if current' != [] {
        JoinedAppend(closed, current');
        parts' := parts' + [Join(" ", current')];
        current' := [];
      }
    } else {
      current' := current' + [stripped];
      if SumLen(current') >= chunkSize {
        JoinedAppend(closed, current');
        parts' := parts' + [Join(" ", current')];
        current' := [];
      }
    }
  }

  lemma FoldStep(lines: seq<string>, i: nat, chunkSize: int)
    requires i < |lines|
    ensures Fold(lines[..i + 1], chunkSize) == Step(Fold(lines[..i], chunkSize), lines[i], chunkSize)
  {
    assert lines[..i + 1][..i] == lines[..i];
  }

  /** The line groups of the parts, the open group closed at the end. */
  function Groups(lines: seq<string>, chunkSize: int): seq<seq<string>> {
    var st := Fold(lines, chunkSize);
    if st.current != [] then st.closed + [st.current] else st.closed
  }

  function Joined(groups: seq<seq<string>>): seq<string> {
    seq(|groups|, i requires 0 <= i < |groups| => Join(" ", groups[i]))
  }

  lemma JoinedAppend(groups: seq<seq<string>>, g: seq<string>)
    ensures Joined(groups + [g]) == Joined(groups) + [Join(" ", g)]
  {
  }

  /** `_split_text` on the lines of a text. */
  function SplitParts(lines: seq<string>, chunkSize: int): seq<string> {
    Joined(Groups(lines, chunkSize))
  }

  predicate NoBlank(xs: seq<string>) {
    forall i | 0 <= i < |xs| :: xs[i] != ""
  }

  /** A well-formed group: not empty, no blank line, and under budget until
      its last line was added. */
  predicate GoodGroup(g: seq<string>, chunkSize: int) {
    g != [] && NoBlank(g) && (|g| > 1 ==> SumLen(g[..|g| - 1]) < chunkSize)
  }

  predicate GoodGroups(groups: seq<seq<string>>, chunkSize: int) {
    forall i | 0 <= i < |groups| :: GoodGroup(groups[i], chunkSize)
  }

  lemma SumLenAppend(xs: seq<string>, x: string)
    ensures SumLen(xs + [x]) == SumLen(xs) + |x|
  {
    assert (xs + [x])[..|xs|] == xs;
  }

  lemma FlattenAppend(groups: seq<seq<string>>, g: seq<string>)
    ensures Flatten(groups + [g]) == Flatten(groups) + g
  {
    assert (groups + [g])[..|groups|] == groups;
  }

  /** What the chunking loop keeps true line after line, with `seen` the
      non-blank lines so far: every closed group is well formed, the open
      group is under budget, and closed and open groups together hold
      exactly `seen`. */
  predicate FoldInv(st: SplitState, seen: seq<string>, chunkSize: int) {
    GoodGroups(st.closed, chunkSize) && NoBlank(st.current) &&
    (st.current != [] ==> SumLen(st.current) < chunkSize) &&
    Flatten(st.closed) + st.current == seen
  }

  /** Closing a non-empty open group under budget gives a good group. */
  lemma CloseOpen(st: SplitState, chunkSize: int)
    requires st.current != [] && NoBlank(st.current) && SumLen(st.current) < chunkSize
    ensures GoodGroup(st.current, chunkSize)
  {
    var n := |st.current| - 1;
    assert st.current == st.current[..n] + [st.current[n]];
    SumLenAppend(st.current[..n], st.current[n]);
  }

  /** A blank line closes the open group, if any, and keeps the invariant. */
  lemma BlankKeepsInv(st: SplitState, seen: seq<string>, chunkSize: int)
    requires FoldInv(st, seen, chunkSize)
    ensures FoldInv(if st.current != [] then SplitState(st.closed + [st.current], []) else st, seen, chunkSize)
  {
    if st.current != [] {
      CloseOpen(st, chunkSize);
      FlattenAppend(st.closed, st.current);
    }
  }

  /** A non-blank line joins the open group, which closes once it reaches
      the budget, and keeps the invariant for the lines seen with it. */
  lemma LineKeepsInv(st: SplitState, seen: seq<string>, stripped: string, chunkSize: int)
    requires FoldInv(st, seen, chunkSize) && stripped != ""
    ensures var current := st.current + [stripped];
      FoldInv(if SumLen(current) >= chunkSize then SplitState(st.closed + [current], []) else SplitState(st.closed, current),
              seen + [stripped], chunkSize)
  {
    var current := st.current + [stripped];
    assert NoBlank(current);
    if SumLen(current) >= chunkSize {
      FullGroupCloses(st, seen, current, chunkSize);
    }
  }

  /** The open group grown by a line closes as a good group. */
  lemma FullGroupCloses(st: SplitState, seen: seq<string>, current: seq<string>, chunkSize: int)
    requires FoldInv(st, seen, chunkSize) && |current| > 0 && current[..|current| - 1] == st.current
    requires NoBlank(current)
    ensures FoldInv(SplitState(st.closed + [current], []), seen + [current[|current| - 1]], chunkSize)
  {
    var last := current[|current| - 1];
    assert current == st.current + [last];
    FlattenAppend(st.closed, current);
    assert Flatten(st.closed + [current]) == (Flatten(st.closed) + st.current) + [last];
    assert GoodGroup(current, chunkSize);
    GoodGroupsAppend(st.closed, current, chunkSize);
  }

  lemma GoodGroupsAppend(groups: seq<seq<string>>, g: seq<string>, chunkSize: int)
    requires GoodGroups(groups, chunkSize) && GoodGroup(g, chunkSize)
    ensures GoodGroups(groups + [g], chunkSize)
  {
  }

  lemma StepKeepsInv(st: SplitState, seen: seq<string>, line: string, chunkSize: int)
    requires FoldInv(st, seen, chunkSize)
    ensures var stripped := Strip(line);
      FoldInv(Step(st, line, chunkSize), if stripped == "" then seen else seen + [stripped], chunkSize)
  {
    var stripped := Strip(line);
    if stripped == "" {
      BlankKeepsInv(st, seen, chunkSize);
    } else {
      LineKeepsInv(st, seen, stripped, chunkSize);
    }
  }

  lemma {:induction false} FoldInvariant(lines: seq<string>, chunkSize: int)
    ensures FoldInv(Fold(lines, chunkSize), NonBlank(lines), chunkSize)
  {
    if lines != [] {
      var n := |lines| - 1;
      FoldInvariant(lines[..n], chunkSize);
      StepKeepsInv(Fold(lines[..n], chunkSize), NonBlank(lines[..n]), lines[n], chunkSize);
    }
  }

  lemma JoinNonEmpty(sep: string, parts: seq<string>)
    requires parts != [] && parts[|parts| - 1] != ""
    ensures Join(sep, parts) != ""
  {
  }

  /** The promises of `_split_text`: no part is empty, each part is its
      group of stripped lines joined by single spaces, every group is under
      budget until its last line, and the groups, read in order, give back
      exactly the non-blank lines of the text. */
  lemma SplitPartsSound(lines: seq<string>, chunkSize: int)
    ensures var groups := Groups(lines, chunkSize);
      var parts := SplitParts(lines, chunkSize);
      |parts| == |groups| &&
      (forall i | 0 <= i < |parts| :: parts[i] == Join(" ", groups[i]) && parts[i] != "") &&
      GoodGroups(groups, chunkSize) &&
      Flatten(groups) == NonBlank(lines)
  {
    FoldInvariant(lines, chunkSize);
    var st := Fold(lines, chunkSize);
    var groups := Groups(lines, chunkSize);
    if st.current != [] {
      CloseOpen(st, chunkSize);
      FlattenAppend(st.closed, st.current);
    }
    assert GoodGroups(groups, chunkSize);
    forall i | 0 <= i < |groups|
      ensures Join(" ", groups[i]) != ""
    {
      assert GoodGroup(groups[i], chunkSize);
      JoinNonEmpty(" ", groups[i]);
    }
  }

  // ------------------------------------------------------------ file names

  /** `name.rfind(c)`. */
  function RFind(s: string, c: char): (i: int)
    ensures -1 <= i < |s|
    ensures i >= 0 ==> s[i] == c
    ensures forall j | i < j < |s| :: s[j] != c
  {
    if s == [] then -1
    else if s[|s| - 1] == c then |s| - 1
    else RFind(s[..|s| - 1], c)
  }

  /** `Path.suffix`: from the last dot on, unless the dot leads or ends the
      name. */
  function Suffix(name: string): string {
    var i := RFind(name, '.');
    if 0 < i < |name| - 1 then name[i..] else ""
  }

  /** `Path.stem`: the name without its suffix. */
  function Stem(name: string): string {
    var i := RFind(name, '.');
    if 0 < i < |name| - 1 then name[..i] else name
  }

  /** A name is its stem followed by its suffix; a non-empty suffix starts
      with the name's last dot and has no other. */
  lemma StemSuffix(name: string)
    ensures Stem(name) + Suffix(name) == name
    ensures Suffix(name) != "" ==>
      Suffix(name)[0] == '.' && forall j | 0 < j < |Suffix(name)| :: Suffix(name)[j] != '.'
  {
    var i := RFind(name, '.');
    if 0 < i < |name| - 1 {
      assert name[..i] + name[i..] == name;
    }
  }

  /** `str.title()` for ASCII: a letter is upper-cased after a non-letter
      and lower-cased after a letter; other characters are kept. */
  function TitleFrom(s: string, afterLetter: bool): (r: string)
    ensures |r| == |s|
  {
    if s == [] then []
    else
      var c := s[0];
      [if !IsLetter(c) then c else if afterLetter then LowerChar(c) else UpperChar(c)]
      + TitleFrom(s[1..], IsLetter(c))
  }

  function TitleCase(s: string): string {
    TitleFrom(s, false)
  }

  /** The title `_load_file` gives every chunk of a file: the first
      non-blank line, else the stem with underscores as spaces, title-cased. */
  function Title(stem: string, lines: seq<string>): (t: string)
    ensures NonBlank(lines) != [] ==> t == NonBlank(lines)[0] && t != ""
    ensures NonBlank(lines) == [] ==> t == TitleCase(Replace(stem, "_", " "))
  {
    var nb := NonBlank(lines);
    if nb != [] then nb[0] else TitleCase(Replace(stem, "_", " "))
  }

  function ChunkId(stem: string, i: nat): string {
    stem + "-" + NatToString(i)
  }

  /** Two chunks of one file never share an id. */
  lemma ChunkIdInjective(stem: string, i: nat, j: nat)
    requires ChunkId(stem, i) == ChunkId(stem, j)
    ensures i == j
  {
    var p := stem + "-";
    assert (p + NatToString(i))[|p|..] == NatToString(i);
    assert (p + NatToString(j))[|p|..] == NatToString(j);
    DigitsValueOfNatToString(i);
    DigitsValueOfNatToString(j);
  }

  /** The chunks of one file, as `_load_file` yields them. */
  function FileChunks(stem: string, text: string, chunkSize: int): seq<DocumentChunk> {
    var lines := SplitLines(text);
    var parts := SplitParts(lines, chunkSize);
    var title := Title(stem, lines);
    seq(|parts|, i requires 0 <= i < |parts| => DocumentChunk(ChunkId(stem, i), title, parts[i]))
  }

  /** Every chunk of a file has its own id, the file's title and one part of
      the text, in order. */
  lemma FileChunksSound(stem: string, text: string, chunkSize: int)
    ensures var chunks := FileChunks(stem, text, chunkSize);
      var parts := SplitParts(SplitLines(text), chunkSize);
      |chunks| == |parts| &&
      (forall i | 0 <= i < |chunks| :: chunks[i].text == parts[i] && chunks[i].text != "" &&
         chunks[i].title == Title(stem, SplitLines(text)) && chunks[i].docId == ChunkId(stem, i)) &&
      (forall i, j | 0 <= i < j < |chunks| :: chunks[i].docId != chunks[j].docId)
  {
    var chunks := FileChunks(stem, text, chunkSize);
    SplitPartsSound(SplitLines(text), chunkSize);
    forall i, j | 0 <= i < j < |chunks|
      ensures chunks[i].docId != chunks[j].docId
    {
      if chunks[i].docId == chunks[j].docId {
        ChunkIdInjective(stem, i, j);
      }
    }
  }

  /** The walk keeps regular files with a ".txt" or ".md" suffix, in any case. */
  predicate Accepted(e: Entry) {
    var suffix := Lower(Suffix(e.name));
    !e.isDir && (suffix == ".txt" || suffix == ".md")
  }

  /** The chunks of every accepted entry, in walk order. */
  function LoadAll(entries: seq<Entry>, chunkSize: int): seq<DocumentChunk> {
    if entries == [] then []
    else
      var e := entries[|entries| - 1];
      LoadAll(entries[..|entries| - 1], chunkSize)
      + (if Accepted(e) then FileChunks(Stem(e.name), e.text, chunkSize) else [])
  }

  lemma LoadAllStep(entries: seq<Entry>, i: nat, chunkSize: int)
    requires i < |entries|
    ensures LoadAll(entries[..i + 1], chunkSize) ==
      LoadAll(entries[..i], chunkSize) + (if Accepted(entries[i]) then FileChunks(Stem(entries[i].name), entries[i].text, chunkSize) else [])
  {
    assert entries[..i + 1][..i] == entries[..i];
  }

  /** `load`: the built-in documents when the directory is missing or gives
      no chunk. */
  function LoadSpec(exists_: bool, entries: seq<Entry>, chunkSize: int): seq<DocumentChunk> {
    if !exists_ then DefaultDocs
    else
      var docs := LoadAll(entries, chunkSize);
      if docs == [] then DefaultDocs else docs
  }

  /** Every loaded chunk comes from an accepted entry, and is one of that
      file's chunks. */
  lemma {:induction false} LoadedFromAccepted(entries: seq<Entry>, chunkSize: int, c: DocumentChunk)
    requires c in LoadAll(entries, chunkSize)
    ensures exists e | e in entries :: Accepted(e) && c in FileChunks(Stem(e.name), e.text, chunkSize)
  {
    var n := |entries| - 1;
    var e := entries[n];
    if c in LoadAll(entries[..n], chunkSize) {
      LoadedFromAccepted(entries[..n], chunkSize, c);
      var e' :| e' in entries[..n] && Accepted(e') && c in FileChunks(Stem(e'.name), e'.text, chunkSize);
      assert e' in entries;
    } else {
      assert e in entries;
    }
  }

  /** Entries that are directories or carry another suffix contribute
      nothing, and `load` never answers with an empty list. */
  lemma LoadSpecSound(exists_: bool, entries: seq<Entry>, chunkSize: int)
    ensures LoadSpec(exists_, entries, chunkSize) != []
    ensures (forall e | e in entries :: !Accepted(e)) ==> LoadSpec(exists_, entries, chunkSize) == DefaultDocs
  {
    if forall e | e in entries :: !Accepted(e) {
      if LoadAll(entries, chunkSize) != [] {
        LoadedFromAccepted(entries, chunkSize, LoadAll(entries, chunkSize)[0]);
      }
    }
  }

  class DocLoader {
    const dataDir: string
    const chunkSize: int

    constructor(dataDir: string, chunkSize: int)
      ensures this.dataDir == dataDir && this.chunkSize == chunkSize
    {
      this.dataDir := dataDir;
      this.chunkSize := chunkSize;
    }

    /** `_split_text`. */
    method SplitText(text: string) returns (parts: seq<string>)
      ensures parts == SplitParts(SplitLines(text), chunkSize)
    {
      var lines := SplitLines(text);
      parts := [];
      var current: seq<string> := [];
      var i := 0;
      ghost var st := Fold([], chunkSize);
      while i < |lines|
        invariant 0 <= i <= |lines|
        invariant st == Fold(lines[..i], chunkSize)
        invariant current == st.current && parts == Joined(st.closed)
      {
        FoldStep(lines, i, chunkSize);
        parts, current := SplitStep(parts, current, lines[i], chunkSize, st.closed);
        st := Step(st, lines[i], chunkSize);
        i := i + 1;
      }
      assert lines[..i] == lines;
      if current != [] {
        JoinedAppend(Fold(lines, chunkSize).closed, current);
        parts := parts + [Join(" ", current)];
      }
    }

    /** `_load_file` on a file's name and text. */
    method LoadFile(name: string, text: string) returns (chunks: seq<DocumentChunk>)
      ensures chunks == FileChunks(Stem(name), text, chunkSize)
    {
      var stem := Stem(name);
      var title := Title(stem, SplitLines(text));
      var parts := SplitText(text);
      ghost var spec := FileChunks(stem, text, chunkSize);
      assert |spec| == |parts|;
      chunks := [];
      var idx := 0;
      while idx < |parts|
        invariant 0 <= idx <= |parts|
        invariant chunks == spec[..idx]
      {
        assert spec[idx] == DocumentChunk(ChunkId(stem, idx), title, parts[idx]);
        PrefixSnoc(spec, idx);
        chunks := chunks + [DocumentChunk(ChunkId(stem, idx), title, parts[idx])];
        idx := idx + 1;
      }
      assert spec[..idx] == spec;
    }

    /** `load`, given whether the directory exists and its sorted walk. */
    method Load(exists_: bool, entries: seq<Entry>) returns (docs: seq<DocumentChunk>)
      ensures docs == LoadSpec(exists_, entries, chunkSize)
    {
      if !exists_ {
        return DefaultDocs;
      }
      var documents: seq<DocumentChunk> := [];
      var i := 0;
      while i < |entries|
        invariant 0 <= i <= |entries|
        invariant documents == LoadAll(entries[..i], chunkSize)
      {
        LoadAllStep(entries, i, chunkSize);
        var e := entries[i];
        if !e.isDir {
          var suffix := Lower(Suffix(e.name));
          if suffix == ".txt" || suffix == ".md" {
            var chunks := LoadFile(e.name, e.text);
            documents := documents + chunks;
          }
        }
        i := i + 1;
      }
      assert entries[..i] == entries;
      docs := if documents == [] then DefaultDocs else documents;
    }
  }
}
