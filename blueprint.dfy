/**
 * The API Blueprint text that `write` and `process_folder` emit, as the
 * sequence of chunks handed to `doc.write`, and the run over the folders
 * that produces it.
 */
module Blueprint {
  import opened Wrappers
  import opened Postman
  import opened Text
  import opened Grouping
  import opened Variables

  const FileFormat := "FORMAT: 1A"
  /** The request and response lines, both for content type `application/json`. */
  const RequestLine := "+ Request (application/json)\n\n"
  const ResponseLine := "+ Response 200 (application/json)\n\n\n"

  /** Chunks written so far and the error that cut the writing short, if any. */
  datatype Emitted = Emitted(chunks: seq<string>, failure: Option<Error>)

  /**
   * The document introduction: format line, host, title, then the
   * description (written as is, without a line break) when non-empty.
   * A `None` host or title raises before its chunk is written.
   */
  function Header(domain: Option<string>, name: Option<string>, description: string): Emitted
  {
    var format := [FileFormat + "\n"];
    match domain
    case None => Emitted(format, Some(DomainIsNone))
    case Some(d) =>
      var host := format + ["HOST: " + d + "\n\n"];
      match name
      case None => Emitted(host, Some(NameIsNone))
      case Some(n) =>
        Emitted(host + ["# " + n + "\n\n"] + (if |description| > 0 then [description] else []), None)
  }

  /**
   * The header stops at the first `None` it concatenates; a complete header
   * is the format line, the host, the title, and the description if any.
   */
  lemma HeaderSpec(domain: Option<string>, name: Option<string>, description: string)
    ensures var h := Header(domain, name, description);
      && (h.failure.None? <==> domain.Some? && name.Some?)
      && |h.chunks| >= 1 && h.chunks[0] == "FORMAT: 1A\n"
      && (domain.None? ==> h == Emitted(["FORMAT: 1A\n"], Some(DomainIsNone)))
      && (domain.Some? ==> |h.chunks| >= 2 && h.chunks[1] == "HOST: " + domain.value + "\n\n")
      && (domain.Some? && name.None? ==> h.failure == Some(NameIsNone) && |h.chunks| == 2)
      && (h.failure.None? ==>
        && |h.chunks| == (if |description| > 0 then 4 else 3)
        && h.chunks[2] == "# " + name.value + "\n\n"
        && (|description| > 0 ==> h.chunks[3] == description))
  {
  }

  /** The `### METHOD path [METHOD]` line of one method entry. */
  function MethodTitle(path: string, m: MethodEntry): string
  {
    "### " + m.httpMethod + " " + path + " [" + m.httpMethod + "]" + "\n\n"
  }

  /** The `+ Request` block: only for POST and PUT, with the dumped body stripped of its outer characters. */
  function RequestBlock(m: MethodEntry, dumps: Json -> string): seq<string>
  {
    if IsBodyMethod(m.httpMethod) then
      [RequestLine, "    + Body\n\n", "            {", Inner(dumps(m.requestBody)), "            }\n", "\n\n\n"]
    else []
  }

  /** The method's description paragraph, written only when non-empty. */
  function DescriptionText(m: MethodEntry): seq<string>
  {
    if |m.description| > 0 then [m.description + "\n\n"] else []
  }

  /** Everything written for one method entry. */
  function MethodText(path: string, m: MethodEntry, dumps: Json -> string): seq<string>
  {
    [MethodTitle(path, m)]
    + DescriptionText(m)
    + RequestBlock(m, dumps)
    + [ResponseLine]
  }

  /** The method entries of one resource, in append order. */
  function MethodsText(path: string, ms: seq<MethodEntry>, dumps: Json -> string): seq<string>
  {
    if |ms| == 0 then []
    else MethodsText(path, ms[..|ms| - 1], dumps) + MethodText(path, ms[|ms| - 1], dumps)
  }

  /** The method text of a prefix one longer is the shorter prefix's text followed by the next method's. */
  lemma MethodsTextSnoc(path: string, ms: seq<MethodEntry>, m: nat, dumps: Json -> string)
    requires m < |ms|
    ensures MethodsText(path, ms[..m + 1], dumps) == MethodsText(path, ms[..m], dumps) + MethodText(path, ms[m], dumps)
  {
    assert ms[..m + 1][..m] == ms[..m];
  }

  /** Concatenation is associative (stated once so that the writers need not re-derive it). */
  lemma AppendAssoc<T>(a: seq<T>, b: seq<T>, c: seq<T>)
    ensures a + b + c == a + (b + c)
  {
  }

  /** The `## name [/path]` heading of a resource. */
  function ResourceHeading(r: Resource): string
  {
    "## " + r.name + " [/" + r.path + "]\n" + "\n\n"
  }

  function ResourceText(r: Resource, dumps: Json -> string): seq<string>
  {
    [ResourceHeading(r)] + MethodsText(r.path, r.methods, dumps)
  }

  /** All resources of the dictionary, in insertion order. */
  function ResourcesText(rs: seq<Resource>, dumps: Json -> string): seq<string>
  {
    if |rs| == 0 then []
    else ResourcesText(rs[..|rs| - 1], dumps) + ResourceText(rs[|rs| - 1], dumps)
  }

  /** The text of a prefix of the dictionary one longer is the shorter prefix's text followed by the next resource's. */
  lemma ResourcesTextSnoc(rs: seq<Resource>, r: nat, dumps: Json -> string)
    requires r < |rs|
    ensures ResourcesText(rs[..r + 1], dumps) == ResourcesText(rs[..r], dumps) + ResourceText(rs[r], dumps)
  {
    assert rs[..r + 1][..r] == rs[..r];
  }

  /** The `# Group N.name` heading. */
  function GroupHeading(n: nat, folderName: string): string
  {
    "# Group " + NatToString(n) + "." + folderName + "\n\n"
  }

  /** One folder's section: its heading, then every resource of the dictionary. */
  function SectionText(n: nat, folderName: string, rs: seq<Resource>, dumps: Json -> string): seq<string>
  {
    [GroupHeading(n, folderName)] + ResourcesText(rs, dumps)
  }

  /**
   * The converter's state as far as the folder loop sees it: the output,
   * the dictionary, the counter, and the error that stopped the run.
   */
  datatype Run = Run(out: seq<string>, resources: seq<Resource>, folderNum: nat, failure: Option<Error>)

  /**
   * `process_folder` on one top-level item: group its children (up to the
   * first that fails), then, if none failed, write the heading numbered
   * by the counter and every resource accumulated so far, and count up.
   */
  function FolderStep(st: Run, folder: Item, loads: string -> Option<Json>, dumps: Json -> string): Run
  {
    if st.failure.Some? then st
    else
      var c := Collect(folder.item.GetOr([]), loads);
      var rs := GroupAll(st.resources, c.entries);
      if c.failure.Some? then Run(st.out, rs, st.folderNum, c.failure)
      else Run(st.out + SectionText(st.folderNum, folder.name.GetOr(""), rs, dumps), rs, st.folderNum + 1, None)
  }

  /** The folder loop of `write`, stopping at the first error. */
  function RunFolders(st: Run, folders: seq<Item>, loads: string -> Option<Json>, dumps: Json -> string): Run
  {
    if |folders| == 0 then st
    else FolderStep(RunFolders(st, folders[..|folders| - 1], loads, dumps), folders[|folders| - 1], loads, dumps)
  }

  /** The loop over a prefix one longer is one more folder step. */
  lemma RunFoldersSnoc(st: Run, fs: seq<Item>, i: nat, loads: string -> Option<Json>, dumps: Json -> string)
    requires i < |fs|
    ensures RunFolders(st, fs[..i + 1], loads, dumps) == FolderStep(RunFolders(st, fs[..i], loads, dumps), fs[i], loads, dumps)
  {
    assert fs[..i + 1][..i] == fs[..i];
  }

  /** `write` from the given fields: the header, then the folder loop. */
  function Document(
    domain: Option<string>, name: Option<string>, description: string, folders: Option<seq<Item>>,
    rs: seq<Resource>, folderNum: nat, loads: string -> Option<Json>, dumps: Json -> string): Run
  {
    var h := Header(domain, name, description);
    if h.failure.Some? then Run(h.chunks, rs, folderNum, h.failure)
    else if folders.None? then Run(h.chunks, rs, folderNum, Some(FoldersIsNone))
    else RunFolders(Run(h.chunks, rs, folderNum, None), folders.value, loads, dumps)
  }

  /** A freshly constructed converter's `write` on collection `c`. */
  function Convert(c: Collection, loads: string -> Option<Json>, dumps: Json -> string): Run
  {
    Document(
      DocumentDomain(WithVariables(map[], c.variable.GetOr([]))),
      DocumentName(c), DocumentDescription(c), c.item, [], 1, loads, dumps)
  }

  /** Once a folder has failed, later folders change nothing. */
  lemma {:induction false} RunFoldersStops(st: Run, xs: seq<Item>, ys: seq<Item>, loads: string -> Option<Json>, dumps: Json -> string)
    requires RunFolders(st, xs, loads, dumps).failure.Some?
    ensures RunFolders(st, xs + ys, loads, dumps) == RunFolders(st, xs, loads, dumps)
  {
    if |ys| > 0 {
      RunFoldersStops(st, xs, ys[..|ys| - 1], loads, dumps);
      assert (xs + ys)[..|xs + ys| - 1] == xs + ys[..|ys| - 1];
    } else {
      assert xs + ys == xs;
    }
  }

  /** A folder that fails ends the loop: the run over all folders is the run up to it. */
  lemma RunFoldersStopsAt(st: Run, fs: seq<Item>, n: nat, loads: string -> Option<Json>, dumps: Json -> string)
    requires n <= |fs| && RunFolders(st, fs[..n], loads, dumps).failure.Some?
    ensures RunFolders(st, fs, loads, dumps) == RunFolders(st, fs[..n], loads, dumps)
  {
    RunFoldersStops(st, fs[..n], fs[n..], loads, dumps);
    assert fs[..n] + fs[n..] == fs;
  }

  /** The output is only ever appended to. */
  lemma {:induction false} RunFoldersExtends(st: Run, folders: seq<Item>, loads: string -> Option<Json>, dumps: Json -> string)
    ensures |st.out| <= |RunFolders(st, folders, loads, dumps).out|
    ensures RunFolders(st, folders, loads, dumps).out[..|st.out|] == st.out
  {
    if |folders| > 0 {
      RunFoldersExtends(st, folders[..|folders| - 1], loads, dumps);
    }
  }

  /** All entries of the folders' children, folder after folder. */
  function AllEntries(folders: seq<Item>, loads: string -> Option<Json>): seq<Keyed>
  {
    if |folders| == 0 then []
    else AllEntries(folders[..|folders| - 1], loads) + Collect(folders[|folders| - 1].item.GetOr([]), loads).entries
  }

  lemma {:induction false} AllEntriesAppend(a: seq<Item>, b: seq<Item>, loads: string -> Option<Json>)
    ensures AllEntries(a + b, loads) == AllEntries(a, loads) + AllEntries(b, loads)
  {
    if |b| > 0 {
      AllEntriesAppend(a, b[..|b| - 1], loads);
      assert (a + b)[..|a + b| - 1] == a + b[..|b| - 1];
    } else {
      assert a + b == a;
    }
  }

  /** What one group of the document shows: its number, its folder's name and the dictionary. */
  datatype Section = Section(number: nat, name: string, resources: seq<Resource>)

  /**
   * The sections of the document, one per top-level item: each gets the
   * next number and lists the dictionary after grouping the children of
   * every item up to and including it.
   */
  function Sections(first: nat, rs: seq<Resource>, folders: seq<Item>, loads: string -> Option<Json>): (secs: seq<Section>)
    ensures |secs| == |folders|
  {
    if |folders| == 0 then []
    else
      var n := |folders|;
      Sections(first, rs, folders[..n - 1], loads)
        + [Section(first + n - 1, folders[n - 1].name.GetOr(""), GroupAll(rs, AllEntries(folders, loads)))]
  }

  /**
   * The k-th top-level item (from 0) is numbered `first + k`, is named
   * after the item, and lists the dictionary after items 0..k.
   */
  lemma {:induction false} SectionAt(first: nat, rs: seq<Resource>, folders: seq<Item>, loads: string -> Option<Json>, k: int)
    requires 0 <= k < |folders|
    ensures Sections(first, rs, folders, loads)[k]
         == Section(first + k, folders[k].name.GetOr(""), GroupAll(rs, AllEntries(folders[..k + 1], loads)))
  {
    var n := |folders|;
    if k < n - 1 {
      SectionAt(first, rs, folders[..n - 1], loads, k);
      assert folders[..n - 1][..k + 1] == folders[..k + 1];
    } else {
      assert folders[..k + 1] == folders;
    }
  }

  function SectionsText(secs: seq<Section>, dumps: Json -> string): seq<string>
  {
    if |secs| == 0 then []
    else
      var s := secs[|secs| - 1];
      SectionsText(secs[..|secs| - 1], dumps) + SectionText(s.number, s.name, s.resources, dumps)
  }

  /** A folder that succeeds appends its section, numbered by the counter, and counts up. */
  lemma FolderStepDone(st: Run, folder: Item, loads: string -> Option<Json>, dumps: Json -> string)
    requires st.failure.None?
    requires FolderStep(st, folder, loads, dumps).failure.None?
    ensures var rs := GroupAll(st.resources, Collect(folder.item.GetOr([]), loads).entries);
      FolderStep(st, folder, loads, dumps)
        == Run(st.out + SectionText(st.folderNum, folder.name.GetOr(""), rs, dumps), rs, st.folderNum + 1, None)
  {
  }

  /**
   * After a folder that succeeds, every path holds its old method entries
   * followed by the entries of the folder's children for that path, in
   * child order; each child contributed its own entry; the counter rose by
   * one and the output was only appended to.
   */
  lemma FolderStepGroups(st: Run, folder: Item, loads: string -> Option<Json>, dumps: Json -> string, p: string)
    requires st.failure.None?
    requires FolderStep(st, folder, loads, dumps).failure.None?
    ensures var after := FolderStep(st, folder, loads, dumps);
      var children := folder.item.GetOr([]);
      var entries := Collect(children, loads).entries;
      && |entries| == |children|
      && (forall i :: 0 <= i < |children| ==> ItemEntry(children[i], loads) == Success(entries[i]))
      && MethodsAt(after.resources, p) == MethodsAt(st.resources, p) + MethodsFor(entries, p)
      && after.folderNum == st.folderNum + 1
      && |st.out| < |after.out| && after.out[..|st.out|] == st.out
  {
    var children := folder.item.GetOr([]);
    CollectSpec(children, loads);
    var entries := Collect(children, loads).entries;
    GroupAllMethods(st.resources, entries, p);
    FolderStepDone(st, folder, loads, dumps);
  }

  /** The sections list each path at most once, when the dictionary started that way. */
  lemma SectionPathsDistinct(first: nat, rs: seq<Resource>, folders: seq<Item>, loads: string -> Option<Json>, k: int)
    requires DistinctPaths(rs) && 0 <= k < |folders|
    ensures DistinctPaths(Sections(first, rs, folders, loads)[k].resources)
  {
    SectionAt(first, rs, folders, loads, k);
    GroupAllDistinct(rs, AllEntries(folders[..k + 1], loads));
  }

  /**
   * A folder loop that succeeds writes exactly the sections `Sections` lists: the
   * counter rises by one per top-level item, and the dictionary is never
   * cleared, so each section lists everything grouped so far.
   */
  lemma {:induction false} RunFoldersSections(st: Run, folders: seq<Item>, loads: string -> Option<Json>, dumps: Json -> string)
    requires st.failure.None?
    requires RunFolders(st, folders, loads, dumps).failure.None?
    ensures RunFolders(st, folders, loads, dumps).folderNum == st.folderNum + |folders|
    ensures RunFolders(st, folders, loads, dumps).resources == GroupAll(st.resources, AllEntries(folders, loads))
    ensures RunFolders(st, folders, loads, dumps).out
         == st.out + SectionsText(Sections(st.folderNum, st.resources, folders, loads), dumps)
  {
    if |folders| > 0 {
      var n := |folders|;
      var init := folders[..n - 1];
      var f := folders[n - 1];
      var prev := RunFolders(st, init, loads, dumps);
      assert RunFolders(st, folders, loads, dumps) == FolderStep(prev, f, loads, dumps);
      assert prev.failure.None?;
      RunFoldersSections(st, init, loads, dumps);
      FolderStepDone(prev, f, loads, dumps);
      var entries := Collect(f.item.GetOr([]), loads).entries;
      assert AllEntries(folders, loads) == AllEntries(init, loads) + entries;
      GroupAllAppend(st.resources, AllEntries(init, loads), entries);
      var rs := GroupAll(st.resources, AllEntries(folders, loads));
      var secs := Sections(st.folderNum, st.resources, folders, loads);
      assert secs == Sections(st.folderNum, st.resources, init, loads)
                   + [Section(st.folderNum + n - 1, f.name.GetOr(""), rs)];
      assert SectionsText(secs, dumps)
          == SectionsText(Sections(st.folderNum, st.resources, init, loads), dumps)
             + SectionText(st.folderNum + n - 1, f.name.GetOr(""), rs, dumps);
    }
  }

  /** Sections listed later start with every resource of earlier sections, in the same order. */
  lemma SectionsAccumulate(first: nat, rs: seq<Resource>, folders: seq<Item>, loads: string -> Option<Json>, k: int, l: int)
    requires 0 <= k <= l < |folders|
    ensures var secs := Sections(first, rs, folders, loads);
      && |secs[k].resources| <= |secs[l].resources|
      && forall j :: 0 <= j < |secs[k].resources| ==>
           secs[l].resources[j].path == secs[k].resources[j].path
           && secs[l].resources[j].name == secs[k].resources[j].name
  {
    SectionAt(first, rs, folders, loads, k);
    SectionAt(first, rs, folders, loads, l);
    var a := folders[..k + 1];
    var b := folders[k + 1..l + 1];
    assert folders[..l + 1] == a + b;
    AllEntriesAppend(a, b, loads);
    GroupAllAppend(rs, AllEntries(a, loads), AllEntries(b, loads));
    GroupAllKeeps(GroupAll(rs, AllEntries(a, loads)), AllEntries(b, loads));
  }

  /**
   * A top-level item without children still gets a group heading, and its
   * section repeats every resource grouped for earlier folders.
   */
  lemma FolderWithoutItems(st: Run, folder: Item, loads: string -> Option<Json>, dumps: Json -> string)
    requires st.failure.None? && folder.item.None?
    ensures FolderStep(st, folder, loads, dumps)
         == Run(st.out + [GroupHeading(st.folderNum, folder.name.GetOr(""))] + ResourcesText(st.resources, dumps),
                st.resources, st.folderNum + 1, None)
  {
  }

  /**
   * The layout of one method entry: the title, the description paragraph
   * only when the description is non-empty, the six chunks of the request
   * block (with the dumped body between the braces) only for POST and PUT,
   * and the response line last.
   */
  lemma MethodLayout(path: string, m: MethodEntry, dumps: Json -> string)
    ensures var t := MethodText(path, m, dumps);
      var d := if |m.description| > 0 then 1 else 0;
      && |t| == 2 + d + (if IsBodyMethod(m.httpMethod) then 6 else 0)
      && t[0] == "### " + m.httpMethod + " " + path + " [" + m.httpMethod + "]\n\n"
      && (|m.description| > 0 ==> t[1] == m.description + "\n\n")
      && (IsBodyMethod(m.httpMethod) ==>
            t[1 + d .. 7 + d] == [RequestLine, "    + Body\n\n", "            {", Inner(dumps(m.requestBody)), "            }\n", "\n\n\n"])
      && t[|t| - 1] == ResponseLine
  {
  }

  /** A method title starts with `#`, so it is never one of the `+` lines. */
  lemma TitleIsNotPlusLine(path: string, m: MethodEntry, line: string)
    requires |line| > 0 && line[0] == '+'
    ensures MethodTitle(path, m) != line
  {
    assert MethodTitle(path, m)[0] == '#';
  }

  /** A `+ Request` line appears for a method entry exactly when it is POST or PUT (or its description is that line). */
  lemma RequestOnlyForBodyMethods(path: string, m: MethodEntry, dumps: Json -> string)
    ensures RequestLine in MethodText(path, m, dumps)
        <==> IsBodyMethod(m.httpMethod) || (|m.description| > 0 && m.description + "\n\n" == RequestLine)
  {
    var d := DescriptionText(m);
    var t := MethodText(path, m, dumps);
    assert t == [MethodTitle(path, m)] + d + RequestBlock(m, dumps) + [ResponseLine];
    TitleIsNotPlusLine(path, m, RequestLine);
    assert RequestLine != ResponseLine by { assert RequestLine[4] != ResponseLine[4]; }
    if IsBodyMethod(m.httpMethod) {
      assert t[1 + |d|] == RequestLine;
    } else {
      assert t == [MethodTitle(path, m)] + d + [ResponseLine];
    }
  }

  /** Whether a method entry's free text could be mistaken for the response line. */
  predicate MimicsResponse(m: MethodEntry, dumps: Json -> string)
  {
    (|m.description| > 0 && m.description + "\n\n" == ResponseLine)
    || (IsBodyMethod(m.httpMethod) && Inner(dumps(m.requestBody)) == ResponseLine)
  }

  /** The fixed lines of the request block are not the response line. */
  lemma RequestBlockResponses(m: MethodEntry, dumps: Json -> string)
    ensures multiset(RequestBlock(m, dumps))[ResponseLine]
         == if IsBodyMethod(m.httpMethod) && Inner(dumps(m.requestBody)) == ResponseLine then 1 else 0
  {
    if IsBodyMethod(m.httpMethod) {
      var x := Inner(dumps(m.requestBody));
      assert RequestBlock(m, dumps)
          == [RequestLine, "    + Body\n\n", "            {"] + [x] + ["            }\n", "\n\n\n"];
      assert RequestLine != ResponseLine by { assert RequestLine[4] != ResponseLine[4]; }
      assert "    + Body\n\n" != ResponseLine by { assert "    + Body\n\n"[0] != ResponseLine[0]; }
      assert "            {" != ResponseLine by { assert "            {"[0] != ResponseLine[0]; }
      assert multiset([RequestLine, "    + Body\n\n", "            {"])[ResponseLine] == 0;
      assert "            }\n" != ResponseLine by { assert "            }\n"[0] != ResponseLine[0]; }
      assert "\n\n\n" != ResponseLine by { assert "\n\n\n"[0] != ResponseLine[0]; }
      assert multiset(["            }\n", "\n\n\n"])[ResponseLine] == 0;
    }
  }

  /** Each method entry ends with the response line, and writes it exactly once unless its own text equals it. */
  lemma OneResponsePerMethod(path: string, m: MethodEntry, dumps: Json -> string)
    ensures var t := MethodText(path, m, dumps);
      && t[|t| - 1] == ResponseLine
      && (!MimicsResponse(m, dumps) ==> multiset(t)[ResponseLine] == 1)
  {
    var d := DescriptionText(m);
    var t := MethodText(path, m, dumps);
    assert t == [MethodTitle(path, m)] + d + RequestBlock(m, dumps) + [ResponseLine];
    if !MimicsResponse(m, dumps) {
      TitleIsNotPlusLine(path, m, ResponseLine);
      RequestBlockResponses(m, dumps);
      assert multiset(d)[ResponseLine] == 0;
      assert multiset(t) == multiset([MethodTitle(path, m)]) + multiset(d) + multiset(RequestBlock(m, dumps)) + multiset([ResponseLine]);
    }
  }

  /** A resource writes one response line per method entry. */
  lemma {:induction false} ResponsesPerResource(path: string, ms: seq<MethodEntry>, dumps: Json -> string)
    requires forall i :: 0 <= i < |ms| ==> !MimicsResponse(ms[i], dumps)
    ensures multiset(MethodsText(path, ms, dumps))[ResponseLine] == |ms|
  {
    if |ms| > 0 {
      ResponsesPerResource(path, ms[..|ms| - 1], dumps);
      OneResponsePerMethod(path, ms[|ms| - 1], dumps);
    }
  }

  /** Without a `domain` variable the document's host line is `HOST: http://localhost`. */
  lemma DefaultHost(c: Collection, loads: string -> Option<Json>, dumps: Json -> string)
    requires forall j :: 0 <= j < |c.variable.GetOr([])| ==> c.variable.GetOr([])[j].key != Some("domain")
    ensures |Convert(c, loads, dumps).out| >= 2
    ensures Convert(c, loads, dumps).out[1] == "HOST: http://localhost\n\n"
  {
    var domain := DocumentDomain(WithVariables(map[], c.variable.GetOr([])));
    DomainDefault(c.variable.GetOr([]));
    assert domain == Some("http://localhost");
    var h := Header(domain, DocumentName(c), DocumentDescription(c));
    HeaderSpec(domain, DocumentName(c), DocumentDescription(c));
    assert h.chunks[1] == "HOST: http://localhost\n\n";
    if h.failure.None? && c.item.Some? {
      RunFoldersExtends(Run(h.chunks, [], 1, None), c.item.value, loads, dumps);
    }
  }

  /**
   * A run that succeeds is the header followed by one section per
   * top-level item, numbered from 1.
   */
  lemma ConvertSections(c: Collection, loads: string -> Option<Json>, dumps: Json -> string)
    requires Convert(c, loads, dumps).failure.None?
    ensures c.item.Some? && DocumentName(c).Some?
    ensures var h := Header(DocumentDomain(WithVariables(map[], c.variable.GetOr([]))), DocumentName(c), DocumentDescription(c));
      && h.failure.None?
      && Convert(c, loads, dumps).out == h.chunks + SectionsText(Sections(1, [], c.item.value, loads), dumps)
      && Convert(c, loads, dumps).folderNum == 1 + |c.item.value|
  {
    var h := Header(DocumentDomain(WithVariables(map[], c.variable.GetOr([]))), DocumentName(c), DocumentDescription(c));
    RunFoldersSections(Run(h.chunks, [], 1, None), c.item.value, loads, dumps);
  }
}
