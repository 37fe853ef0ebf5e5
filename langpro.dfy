/**
 * The Python wrapper around the LangPro theorem prover (M4LP/A2.py): the
 * checks of the parameters handed to the prover, the scan of the data
 * directory that finds the token-annotation, sentence and parse files, the
 * preparation done by `nli_prove` and `tableau_prove` before the prover
 * runs, and the table of HTML files a tableau proof is drawn into.
 * Running the prover itself is not modelled.
 */
module LangProWrapper {
  import opened Common
  import opened PyText

  /** The errors the wrapper raises before the prover runs. */
  datatype WrapperError =
    | BadAlign(align: string)          // AssertionError of check_align_param
    | BadPids(pids: PyValue)           // RuntimeError of check_pids_param
    | MissingKey(key: string)          // KeyError on a dictionary lookup
    | NotAFile(path: string)           // AssertionError on a prover file
    | MissingAttribute(name: string)   // RuntimeError: an attribute was never set
    | NameError(name: string)          // a name that is not defined

  // ---------------------------------------------------------------------
  // check_align_param

  /** The accepted values of the `align` parameter. */
  const AlignValues: seq<string> := ["align", "no_align", "both"]

  /** The alignment modes the prover understands. */
  datatype AlignMode = Align | NoAlign | Both

  /** The parameter value that selects a mode. */
  function AlignName(m: AlignMode): string
  {
    match m
    case Align => "align"
    case NoAlign => "no_align"
    case Both => "both"
  }

  /**
   * `check_align_param(align)`: accepts exactly the three mode names and
   * fails with an assertion error on anything else.
   */
  function CheckAlign(align: string): (r: Result<AlignMode, WrapperError>)
    ensures r.Ok? <==> align in AlignValues
    ensures r.Ok? ==> AlignName(r.value) == align
    ensures r.Err? ==> r.error == BadAlign(align)
  {
    if align == "align" then Ok(Align)
    else if align == "no_align" then Ok(NoAlign)
    else if align == "both" then Ok(Both)
    else Err(BadAlign(align))
  }

  /** Every mode's name passes the check and selects that mode. */
  lemma CheckAlignName(m: AlignMode)
    ensures CheckAlign(AlignName(m)) == Ok(m)
  {
  }

  // ---------------------------------------------------------------------
  // check_pids_param

  /** The Python values a caller may pass as `pids`. */
  datatype PyValue = PyNone | PyStr(s: string) | PyList(items: seq<PyValue>) | PyInt(i: int) | PyOther

  /**
   * `check_pids_param(pids)`: `None` and `'all'` select every problem and
   * become the Prolog wildcard `'_'`; any other string or list is passed on
   * unchanged; any other value is an error.
   */
  function CheckPids(pids: PyValue): (r: Result<PyValue, WrapperError>)
    ensures r.Ok? <==> pids.PyNone? || pids.PyStr? || pids.PyList?
    ensures r.Err? ==> r.error == BadPids(pids)
    ensures r.Ok? ==> r.value.PyStr? || r.value.PyList?
    ensures r.Ok? ==> r.value != PyStr("all")
    ensures pids == PyNone || pids == PyStr("all") ==> r == Ok(PyStr("_"))
    ensures r.Ok? && pids != PyNone && pids != PyStr("all") ==> r.value == pids
  {
    if pids.PyNone? || pids == PyStr("all") then Ok(PyStr("_"))
    else if pids.PyList? || pids.PyStr? then Ok(pids)
    else Err(BadPids(pids))
  }

  /** Checking an already checked value changes nothing. */
  lemma CheckPidsIdempotent(pids: PyValue)
    requires CheckPids(pids).Ok?
    ensures CheckPids(CheckPids(pids).value) == CheckPids(pids)
  {
  }

  // ---------------------------------------------------------------------
  // check_annos_param

  /** The tool the wrapper always forces for the named-entity layer. */
  const NerTool: string := "'cc2016.st'"

  /** No key occurs twice among the items of a dictionary. */
  predicate DistinctKeys(items: seq<(string, string)>)
  {
    forall i, j :: 0 <= i < j < |items| ==> items[i].0 != items[j].0
  }

  /** `d.get(key)` on a dictionary given by its items in insertion order. */
  function Lookup(items: seq<(string, string)>, key: string): (r: Option<string>)
    ensures r.Some? ==> exists k :: 0 <= k < |items| && items[k] == (key, r.value)
    ensures r.None? ==> forall k :: 0 <= k < |items| ==> items[k].0 != key
  {
    if items == [] then None
    else if items[0].0 == key then Some(items[0].1)
    else Lookup(items[1..], key)
  }

  /**
   * `d[key] = value`: an existing key keeps its place and gets the new
   * value; a new key is appended at the end.
   */
  function SetItem(items: seq<(string, string)>, key: string, value: string): (r: seq<(string, string)>)
    ensures Lookup(r, key) == Some(value)
    ensures forall other :: other != key ==> Lookup(r, other) == Lookup(items, other)
    ensures Lookup(items, key).None? ==> r == items + [(key, value)]
  {
    if items == [] then [(key, value)]
    else if items[0].0 == key then [(key, value)] + items[1..]
    else [items[0]] + SetItem(items[1..], key, value)
  }

  /** An existing key keeps its place: the keys of the items, in order, do not change. */
  lemma {:induction false} SetItemInPlace(items: seq<(string, string)>, key: string, value: string)
    requires Lookup(items, key).Some?
    ensures var r := SetItem(items, key, value);
            |r| == |items| && forall i :: 0 <= i < |items| ==> r[i].0 == items[i].0
  {
    if items[0].0 != key {
      SetItemInPlace(items[1..], key, value);
      var rest := SetItem(items[1..], key, value);
      assert SetItem(items, key, value) == [items[0]] + rest;
    }
  }

  /** Setting an item keeps the keys distinct. */
  lemma SetItemDistinct(items: seq<(string, string)>, key: string, value: string)
    requires DistinctKeys(items)
    ensures DistinctKeys(SetItem(items, key, value))
  {
    if Lookup(items, key).Some? {
      SetItemInPlace(items, key, value);
    }
  }

  /** Setting the same item twice is setting it once. */
  lemma {:induction false} SetItemIdempotent(items: seq<(string, string)>, key: string, value: string)
    ensures SetItem(SetItem(items, key, value), key, value) == SetItem(items, key, value)
  {
    if items != [] && items[0].0 != key {
      SetItemIdempotent(items[1..], key, value);
    }
  }

  /** The updated key is the last one exactly when it was new or was already the last. */
  lemma SetItemLast(items: seq<(string, string)>, key: string, value: string)
    ensures var r := SetItem(items, key, value);
            |r| > 0 && (r[|r| - 1].0 == key <==> Lookup(items, key).None? || (items != [] && items[|items| - 1].0 == key))
  {
    if Lookup(items, key).Some? {
      SetItemInPlace(items, key, value);
    }
  }

  /** The `annotation-tool` words, one per item. */
  function AnnoParts(items: seq<(string, string)>): (r: seq<string>)
    ensures |r| == |items|
  {
    seq(|items|, i requires 0 <= i < |items| => items[i].0 + "-" + items[i].1)
  }

  /** The `anno_sys` list handed to the prover: the items joined by `", "`. */
  function AnnoSys(items: seq<(string, string)>): string
  {
    JoinWith(AnnoParts(items), ", ")
  }

  /** Every item of the dictionary appears in `anno_sys` as `annotation-tool`. */
  lemma AnnoSysMentions(items: seq<(string, string)>, k: nat)
    requires k < |items|
    ensures Contains(AnnoSys(items), items[k].0 + "-" + items[k].1)
  {
    JoinWithContains(AnnoParts(items), ", ", k);
  }

  /** After the check, `anno_sys` always names the forced named-entity tool. */
  lemma CheckedAnnoSysHasNer(items: seq<(string, string)>)
    ensures Contains(AnnoSys(SetItem(items, "ner", NerTool)), "ner-" + NerTool)
  {
    var r := SetItem(items, "ner", NerTool);
    var k :| 0 <= k < |r| && r[k] == ("ner", NerTool);
    AnnoSysMentions(r, k);
    assert r[k].0 + "-" + r[k].1 == "ner-" + NerTool;
  }

  /** A Python dictionary of annotation layers and tools, updated in place. */
  class AnnoDict {
    var items: seq<(string, string)>

    /** The dictionary keeps each key once. */
    ghost predicate Valid()
      reads this
    {
      DistinctKeys(items)
    }

    constructor (items: seq<(string, string)>)
      requires DistinctKeys(items)
      ensures Valid() && this.items == items
    {
      this.items := items;
    }
  }

  /**
   * `check_annos_param(annos)`: forces the named-entity tool into the
   * caller's dictionary and returns the `anno_sys` list built from it.
   */
  method CheckAnnos(annos: AnnoDict) returns (annoSys: string)
    modifies annos
    ensures annos.items == SetItem(old(annos.items), "ner", NerTool)
    ensures old(annos.Valid()) ==> annos.Valid()
    ensures annoSys == AnnoSys(annos.items)
  {
    if DistinctKeys(annos.items) {
      SetItemDistinct(annos.items, "ner", NerTool);
    }
    annos.items := SetItem(annos.items, "ner", NerTool);
    annoSys := AnnoSys(annos.items);
  }

  // ---------------------------------------------------------------------
  // The HTML files of tableau_prove

  /** The modes a tableau proof is drawn in: both of them for `"both"`. */
  function AlignModesFor(align: string): seq<string>
  {
    if align == "both" then ["align", "no_align"] else [align]
  }

  /** The (mode, answer) pairs, in the order the nested comprehension lists them. */
  function TableauModes(align: string): (r: seq<(string, string)>)
    ensures |r| == 2 * |AlignModesFor(align)|
  {
    if align == "both" then [("align", "yes"), ("align", "no"), ("no_align", "yes"), ("no_align", "no")]
    else [(align, "yes"), (align, "no")]
  }

  /** The file name of one tableau, relative to the prover directory. */
  function HtmlName(pid: int, mode: string, answer: string): string
  {
    "xml/tableau-" + IntToDecimal(pid) + "-" + answer + "-" + mode + ".html"
  }

  /** The `mode2html` dictionary of `tableau_prove`. */
  function Mode2Html(dir: string, pid: int, align: string): map<(string, string), string>
  {
    map k | k in TableauModes(align) :: PathJoin(dir, HtmlName(pid, k.0, k.1))
  }

  /** A tableau file name is relative, and its length grows with the mode and the answer. */
  lemma HtmlNameShape(pid: int, mode: string, answer: string)
    ensures HtmlName(pid, mode, answer) != [] && HtmlName(pid, mode, answer)[0] == 'x'
    ensures |HtmlName(pid, mode, answer)| == 19 + |IntToDecimal(pid)| + |answer| + |mode|
  {
  }

  /** `mode2html` has a key for each answer in each selected mode: four for `"both"`, two otherwise. */
  lemma Mode2HtmlKeys(dir: string, pid: int, align: string)
    ensures align == "both" ==>
              Mode2Html(dir, pid, align).Keys == {("align", "yes"), ("align", "no"), ("no_align", "yes"), ("no_align", "no")}
    ensures align != "both" ==> Mode2Html(dir, pid, align).Keys == {(align, "yes"), (align, "no")}
    ensures |Mode2Html(dir, pid, align)| == if align == "both" then 4 else 2
  {
    var modes := TableauModes(align);
    assert Mode2Html(dir, pid, align).Keys == set k | k in modes;
    TableauModesDistinct(align);
    DistinctCard(modes);
    if align == "both" {
      BothKeys(dir, pid);
    } else {
      SingleKeys(dir, pid, align);
    }
  }

  /** The four keys for `"both"`. */
  lemma BothKeys(dir: string, pid: int)
    ensures Mode2Html(dir, pid, "both").Keys == {("align", "yes"), ("align", "no"), ("no_align", "yes"), ("no_align", "no")}
  {
    assert TableauModes("both") == [("align", "yes"), ("align", "no"), ("no_align", "yes"), ("no_align", "no")];
  }

  /** The two keys for a single mode. */
  lemma SingleKeys(dir: string, pid: int, align: string)
    requires align != "both"
    ensures Mode2Html(dir, pid, align).Keys == {(align, "yes"), (align, "no")}
  {
    assert TableauModes(align) == [(align, "yes"), (align, "no")];
  }

  /** No (mode, answer) pair is listed twice. */
  lemma TableauModesDistinct(align: string)
    ensures var modes := TableauModes(align);
            forall i, j :: 0 <= i < j < |modes| ==> modes[i] != modes[j]
  {
    var a, n, y, o := "align", "no_align", "yes", "no";
    assert |a| == 5 && |n| == 8 && |y| == 3 && |o| == 2;
    if align == "both" {
      assert TableauModes(align) == [(a, y), (a, o), (n, y), (n, o)];
    } else {
      assert TableauModes(align) == [(align, y), (align, o)];
    }
  }

  /** No two keys of `mode2html` share a file. */
  lemma Mode2HtmlInjective(dir: string, pid: int, align: string, k1: (string, string), k2: (string, string))
    requires k1 in Mode2Html(dir, pid, align) && k2 in Mode2Html(dir, pid, align) && k1 != k2
    ensures Mode2Html(dir, pid, align)[k1] != Mode2Html(dir, pid, align)[k2]
  {
    TableauKeyWeights(align, k1, k2);
    HtmlNameShape(pid, k1.0, k1.1);
    HtmlNameShape(pid, k2.0, k2.1);
    if PathJoin(dir, HtmlName(pid, k1.0, k1.1)) == PathJoin(dir, HtmlName(pid, k2.0, k2.1)) {
      PathJoinInjective(dir, HtmlName(pid, k1.0, k1.1), HtmlName(pid, k2.0, k2.1));
    }
  }

  /** Two different (mode, answer) pairs differ in their total length. */
  lemma TableauKeyWeights(align: string, k1: (string, string), k2: (string, string))
    requires k1 in TableauModes(align) && k2 in TableauModes(align) && k1 != k2
    ensures |k1.0| + |k1.1| != |k2.0| + |k2.1|
  {
    var a, n, y, o := "align", "no_align", "yes", "no";
    assert |a| == 5 && |n| == 8 && |y| == 3 && |o| == 2;
    if align == "both" {
      assert TableauModes(align) == [(a, y), (a, o), (n, y), (n, o)];
    } else {
      assert TableauModes(align) == [(align, y), (align, o)];
    }
  }

  // ---------------------------------------------------------------------
  // Classifying the files of the data directory (LangPro.__init__)

  /** The parsers whose output files are recognised, in order of preference. */
  const Parsers: seq<string> := ["cc2016", "easyccg", "depccg"]

  /** What a file of the data directory is used for. */
  datatype FileKind = TokAnno | SenFile | Parse(parser: string) | Ignored

  /** The index of the first parser, from `j` on, whose `_name` occurs in `f`. */
  function ParserFrom(f: string, j: nat): (r: Option<nat>)
    requires j <= |Parsers|
    ensures r.Some? ==> j <= r.value < |Parsers| && Contains(f, "_" + Parsers[r.value])
                        && forall q :: j <= q < r.value ==> !Contains(f, "_" + Parsers[q])
    ensures r.None? ==> forall q :: j <= q < |Parsers| ==> !Contains(f, "_" + Parsers[q])
    decreases |Parsers| - j
  {
    if j == |Parsers| then None
    else if Contains(f, "_" + Parsers[j]) then Some(j)
    else ParserFrom(f, j + 1)
  }

  /** A token-annotation file name is also a sentence file name: the order of the tests matters. */
  lemma AnnoSenIsSen(f: string)
    requires EndsWith(f, "anno_sen.pl")
    ensures EndsWith(f, "_sen.pl")
  {
    assert f[|f| - 7..] == f[|f| - 11..][4..];
  }

  /**
   * The branch a file name takes: token annotations, then sentences, then
   * the first parser whose name follows an underscore in the file name.
   */
  function KindOf(f: string): FileKind
  {
    if EndsWith(f, "anno_sen.pl") then TokAnno
    else if EndsWith(f, "_sen.pl") then SenFile
    else match ParserFrom(f, 0)
      case Some(q) => Parse(Parsers[q])
      case None => Ignored
  }

  /** The kinds in terms of the file name. */
  lemma KindOfIff(f: string)
    ensures KindOf(f) == TokAnno <==> EndsWith(f, "anno_sen.pl")
    ensures KindOf(f) == SenFile <==> EndsWith(f, "_sen.pl") && !EndsWith(f, "anno_sen.pl")
    ensures KindOf(f).Parse? ==> !EndsWith(f, "_sen.pl") && KindOf(f).parser in Parsers && Contains(f, "_" + KindOf(f).parser)
    ensures KindOf(f) == Ignored <==> !EndsWith(f, "_sen.pl") && forall q :: 0 <= q < |Parsers| ==> !Contains(f, "_" + Parsers[q])
  {
    if EndsWith(f, "anno_sen.pl") {
      AnnoSenIsSen(f);
    }
  }

  /** The index of the last file of `entries` of kind `k`: a later file overrides an earlier one. */
  function LastIndexOfKind(entries: seq<string>, k: FileKind): (r: Option<nat>)
    ensures r.None? <==> forall i :: 0 <= i < |entries| ==> KindOf(entries[i]) != k
    ensures r.Some? ==> r.value < |entries| && KindOf(entries[r.value]) == k
                        && forall j :: r.value < j < |entries| ==> KindOf(entries[j]) != k
  {
    if entries == [] then None
    else if KindOf(entries[|entries| - 1]) == k then Some(|entries| - 1)
    else LastIndexOfKind(entries[..|entries| - 1], k)
  }

  /** The last file of `entries` of kind `k`. */
  function LastOfKind(entries: seq<string>, k: FileKind): Option<string>
  {
    match LastIndexOfKind(entries, k)
    case Some(i) => Some(entries[i])
    case None => None
  }

  /** One more file overrides the last file of its own kind only. */
  lemma LastOfKindStep(entries: seq<string>, f: string, k: FileKind)
    ensures LastOfKind(entries + [f], k) == if KindOf(f) == k then Some(f) else LastOfKind(entries, k)
  {
    assert (entries + [f])[..|entries|] == entries;
  }

  /** The parse files found, by parser: the last file of each parser, inside the data directory. */
  function ParseFiles(dataDir: string, entries: seq<string>): map<string, string>
  {
    map p | p in Parsers && LastOfKind(entries, Parse(p)).Some? :: PathJoin(dataDir, LastOfKind(entries, Parse(p)).value)
  }

  /** One more file changes the parse files only if it is one. */
  lemma ParseFilesStep(dataDir: string, entries: seq<string>, f: string)
    ensures KindOf(f).Parse? ==>
              ParseFiles(dataDir, entries + [f]) == ParseFiles(dataDir, entries)[KindOf(f).parser := PathJoin(dataDir, f)]
    ensures !KindOf(f).Parse? ==> ParseFiles(dataDir, entries + [f]) == ParseFiles(dataDir, entries)
  {
    var m1, m2 := ParseFiles(dataDir, entries + [f]), ParseFilesAfter(dataDir, entries, f);
    forall p | p in Parsers
      ensures p in m1 <==> p in m2
      ensures p in m1 ==> m1[p] == m2[p]
    {
      ParseFilesAt(dataDir, entries, f, p);
    }
    assert m1.Keys == m2.Keys;
  }

  /** The parse files after `f`, as `ParseFilesStep` states them. */
  function ParseFilesAfter(dataDir: string, entries: seq<string>, f: string): map<string, string>
  {
    var k := KindOf(f);
    if k.Parse? then ParseFiles(dataDir, entries)[k.parser := PathJoin(dataDir, f)] else ParseFiles(dataDir, entries)
  }

  /** `ParseFilesStep` for one parser. */
  lemma ParseFilesAt(dataDir: string, entries: seq<string>, f: string, p: string)
    requires p in Parsers
    ensures p in ParseFiles(dataDir, entries + [f]) <==> p in ParseFilesAfter(dataDir, entries, f)
    ensures p in ParseFiles(dataDir, entries + [f]) ==>
              ParseFiles(dataDir, entries + [f])[p] == ParseFilesAfter(dataDir, entries, f)[p]
  {
    LastOfKindStep(entries, f, Parse(p));
  }

  /** The file of kind `k` found in the data directory, or the earlier value when there is none. */
  function FoundOr(dataDir: string, entries: seq<string>, k: FileKind, earlier: Option<string>): Option<string>
  {
    match LastOfKind(entries, k)
    case Some(f) => Some(PathJoin(dataDir, f))
    case None => earlier
  }

  /** The attributes of a `LangPro` object once it is built. */
  datatype Settings = Settings(mainPl: string, wnPl: string, dir: string, parses: map<string, string>,
                               tokAnnoPl: string, senPl: string)

  /**
   * What `LangPro(prover_dir, data_dir)` builds, given the set of files
   * that exist and the names listed in the data directory: both prover
   * files must exist; the data directory must hold a token-annotation file
   * and a sentence file; parse files are optional.
   */
  function Init(proverDir: string, dataDir: string, files: set<string>, entries: seq<string>): (r: Result<Settings, WrapperError>)
    ensures r.Ok? <==> PathJoin(proverDir, "prolog/main.pl") in files && PathJoin(proverDir, "WNProlog/wn.pl") in files
                       && (exists i :: 0 <= i < |entries| && KindOf(entries[i]) == TokAnno)
                       && (exists i :: 0 <= i < |entries| && KindOf(entries[i]) == SenFile)
    ensures r.Ok? ==> forall p :: p in r.value.parses ==> p in Parsers
  {
    var mainPl := PathJoin(proverDir, "prolog/main.pl");
    var wnPl := PathJoin(proverDir, "WNProlog/wn.pl");
    if mainPl !in files then Err(NotAFile(mainPl))
    else if wnPl !in files then Err(NotAFile(wnPl))
    else match LastOfKind(entries, TokAnno)
      case None => Err(MissingAttribute("tok_anno_pl"))
      case Some(t) =>
        match LastOfKind(entries, SenFile)
        case None => Err(MissingAttribute("sen_pl"))
        case Some(s) =>
          Ok(Settings(mainPl, wnPl, proverDir, ParseFiles(dataDir, entries), PathJoin(dataDir, t), PathJoin(dataDir, s)))
  }

  /**
   * `LangPro.__init__` as written: the directory listing calls `os.listdir`
   * but the module only imports `os.path` (as `op`), so once both prover
   * files are found the call fails with a `NameError`.
   */
  function InitAsWritten(proverDir: string, dataDir: string, files: set<string>): (r: Result<Settings, WrapperError>)
    ensures r.Err?
    ensures PathJoin(proverDir, "prolog/main.pl") in files && PathJoin(proverDir, "WNProlog/wn.pl") in files
            ==> r == Err(NameError("os"))
  {
    var mainPl := PathJoin(proverDir, "prolog/main.pl");
    var wnPl := PathJoin(proverDir, "WNProlog/wn.pl");
    if mainPl !in files then Err(NotAFile(mainPl))
    else if wnPl !in files then Err(NotAFile(wnPl))
    else Err(NameError("os"))
  }

  /** A complete prover and data directory that the code as written still rejects. */
  lemma InitAsWrittenRejectsCompleteSetup()
    ensures var files := {"LangPro/prolog/main.pl", "LangPro/WNProlog/wn.pl"};
            var entries := ["sick_anno_sen.pl", "sick_sen.pl", "sick_depccg.pl"];
            && InitAsWritten("LangPro", "data", files) == Err(NameError("os"))
            && Init("LangPro", "data", files, entries).Ok?
  {
    var entries := ["sick_anno_sen.pl", "sick_sen.pl", "sick_depccg.pl"];
    SampleProverPaths();
    SampleTokAnno();
    SampleSenFile();
    assert KindOf(entries[0]) == TokAnno;
    assert KindOf(entries[1]) == SenFile;
  }

  /** The two prover files under the sample directory. */
  lemma SampleProverPaths()
    ensures PathJoin("LangPro", "prolog/main.pl") == "LangPro/prolog/main.pl"
    ensures PathJoin("LangPro", "WNProlog/wn.pl") == "LangPro/WNProlog/wn.pl"
  {
    var d := "LangPro";
    assert d[|d| - 1] == 'o';
    assert DirPrefix(d) == "LangPro/";
    assert "prolog/main.pl"[0] == 'p' && "WNProlog/wn.pl"[0] == 'W';
  }

  /** The sample annotation file is recognised as the token annotation. */
  lemma SampleTokAnno()
    ensures KindOf("sick_anno_sen.pl") == TokAnno
  {
    assert EndsWith("sick_anno_sen.pl", "anno_sen.pl");
  }

  /** The sample sentence file is recognised as such. */
  lemma SampleSenFile()
    ensures KindOf("sick_sen.pl") == SenFile
  {
    var f := "sick_sen.pl";
    assert f[|f| - 7..] == "_sen.pl";
    assert f[|f| - 11..] != "anno_sen.pl";
  }

  /** A prover object whose attributes are set step by step, as `__init__` does. */
  class LangPro {
    var mainPl: string
    var wnPl: string
    var dir: string
    var parses: map<string, string>
    var tokAnnoPl: Option<string>
    var senPl: Option<string>

    /** The first lines of `__init__`: the prover paths and an empty parse table. */
    constructor (proverDir: string)
      ensures mainPl == PathJoin(proverDir, "prolog/main.pl")
      ensures wnPl == PathJoin(proverDir, "WNProlog/wn.pl")
      ensures dir == proverDir
      ensures parses == map[] && tokAnnoPl == None && senPl == None
    {
      mainPl := PathJoin(proverDir, "prolog/main.pl");
      wnPl := PathJoin(proverDir, "WNProlog/wn.pl");
      dir := proverDir;
      parses := map[];
      tokAnnoPl := None;
      senPl := None;
    }

    /** The attributes, once both data files are set. */
    function Current(): Option<Settings>
      reads this
    {
      match (tokAnnoPl, senPl)
      case (Some(t), Some(s)) => Some(Settings(mainPl, wnPl, dir, parses, t, s))
      case _ => None
    }

    /** One pass of the loop of `__init__`: the file sets the attribute its kind selects. */
    method ScanEntry(dataDir: string, f: string)
      modifies this
      ensures parses == if KindOf(f).Parse? then old(parses)[KindOf(f).parser := PathJoin(dataDir, f)] else old(parses)
      ensures tokAnnoPl == if KindOf(f) == TokAnno then Some(PathJoin(dataDir, f)) else old(tokAnnoPl)
      ensures senPl == if KindOf(f) == SenFile then Some(PathJoin(dataDir, f)) else old(senPl)
      ensures mainPl == old(mainPl) && wnPl == old(wnPl) && dir == old(dir)
    {
      if EndsWith(f, "anno_sen.pl") {
        tokAnnoPl := Some(PathJoin(dataDir, f));
      } else if EndsWith(f, "_sen.pl") {
        senPl := Some(PathJoin(dataDir, f));
      } else {
        var j := 0;
        while j < |Parsers|
          invariant j <= |Parsers|
          invariant ParserFrom(f, j) == ParserFrom(f, 0)
          invariant parses == old(parses)
        {
          if Contains(f, "_" + Parsers[j]) {
            parses := parses[Parsers[j] := PathJoin(dataDir, f)];
            break;
          }
          j := j + 1;
        }
      }
    }

    /**
     * The loop of `__init__` over the names in the data directory: each
     * file sets the attribute its kind selects, a later file overriding an
     * earlier one of the same kind.
     */
    method ScanDataDir(dataDir: string, entries: seq<string>)
      modifies this
      ensures parses == old(parses) + ParseFiles(dataDir, entries)
      ensures tokAnnoPl == FoundOr(dataDir, entries, TokAnno, old(tokAnnoPl))
      ensures senPl == FoundOr(dataDir, entries, SenFile, old(senPl))
      ensures mainPl == old(mainPl) && wnPl == old(wnPl) && dir == old(dir)
    {
      for i := 0 to |entries|
        invariant parses == old(parses) + ParseFiles(dataDir, entries[..i])
        invariant tokAnnoPl == FoundOr(dataDir, entries[..i], TokAnno, old(tokAnnoPl))
        invariant senPl == FoundOr(dataDir, entries[..i], SenFile, old(senPl))
        invariant mainPl == old(mainPl) && wnPl == old(wnPl) && dir == old(dir)
      {
        var f := entries[i];
        assert entries[..i + 1] == entries[..i] + [f];
        LastOfKindStep(entries[..i], f, TokAnno);
        LastOfKindStep(entries[..i], f, SenFile);
        ParseFilesStep(dataDir, entries[..i], f);
        if KindOf(f).Parse? {
          UnionUpdate(old(parses), ParseFiles(dataDir, entries[..i]), KindOf(f).parser, PathJoin(dataDir, f));
        }
        ScanEntry(dataDir, f);
      }
      assert entries[..|entries|] == entries;
    }
  }

  /**
   * `LangPro(prover_dir, data_dir)` with the directory listing that was
   * evidently intended: the object it builds has exactly the attributes
   * `Init` describes, and it fails exactly when `Init` does, with the same
   * error.
   */
  method Create(proverDir: string, dataDir: string, files: set<string>, entries: seq<string>)
    returns (r: Result<LangPro, WrapperError>)
    ensures r.Err? <==> Init(proverDir, dataDir, files, entries).Err?
    ensures r.Err? ==> r.error == Init(proverDir, dataDir, files, entries).error
    ensures r.Ok? ==> fresh(r.value) && r.value.Current() == Some(Init(proverDir, dataDir, files, entries).value)
  {
    var lp := new LangPro(proverDir);
    if lp.mainPl !in files {
      return Err(NotAFile(lp.mainPl));
    }
    if lp.wnPl !in files {
      return Err(NotAFile(lp.wnPl));
    }
    lp.ScanDataDir(dataDir, entries);
    EmptyUnion(ParseFiles(dataDir, entries));
    if lp.tokAnnoPl.None? {
      return Err(MissingAttribute("tok_anno_pl"));
    }
    if lp.senPl.None? {
      return Err(MissingAttribute("sen_pl"));
    }
    return Ok(lp);
  }

  // ---------------------------------------------------------------------
  // The preparation done by nli_prove and tableau_prove

  /** What `nli_prove` hands to the prover besides its fixed options. */
  datatype NliSetup = NliSetup(pids: PyValue, annoSys: string, parseFile: string)

  /**
   * The part of `nli_prove` before the prover runs: the checks of `pids`,
   * `align` and `annos` in that order (a failed check leaves `annos`
   * untouched), then the parse file of the tool named by `annos['ccg']`.
   */
  method NliProve(lp: LangPro, pids: PyValue, align: string, annos: AnnoDict)
    returns (r: Result<NliSetup, WrapperError>)
    modifies annos
    ensures CheckPids(pids).Err? ==> r == Err(BadPids(pids)) && annos.items == old(annos.items)
    ensures CheckPids(pids).Ok? && align !in AlignValues ==> r == Err(BadAlign(align)) && annos.items == old(annos.items)
    ensures CheckPids(pids).Ok? && align in AlignValues ==>
              && annos.items == SetItem(old(annos.items), "ner", NerTool)
              && (r.Ok? <==> Lookup(old(annos.items), "ccg").Some? && Lookup(old(annos.items), "ccg").value in lp.parses)
              && (r.Err? ==> r.error == MissingKey(if Lookup(old(annos.items), "ccg").Some? then Lookup(old(annos.items), "ccg").value else "ccg"))
    ensures r.Ok? ==> r.value == NliSetup(CheckPids(pids).value, AnnoSys(annos.items), lp.parses[Lookup(old(annos.items), "ccg").value])
  {
    var checked := CheckPids(pids);
    if checked.Err? {
      return Err(checked.error);
    }
    var mode := CheckAlign(align);
    if mode.Err? {
      return Err(mode.error);
    }
    var annoSys := CheckAnnos(annos);
    var ccg := Lookup(annos.items, "ccg");
    if ccg.None? {
      return Err(MissingKey("ccg"));
    }
    if ccg.value !in lp.parses {
      return Err(MissingKey(ccg.value));
    }
    return Ok(NliSetup(checked.value, annoSys, lp.parses[ccg.value]));
  }

  /**
   * `tableau_prove` around the prover run: the checks of `align` and
   * `annos`, the lookup of the depccg parse file the prover is given, and
   * the table of HTML files the tableaux are drawn into.
   */
  method TableauProve(lp: LangPro, pid: int, align: string, annos: AnnoDict)
    returns (r: Result<map<(string, string), string>, WrapperError>)
    modifies annos
    ensures align !in AlignValues ==> r == Err(BadAlign(align)) && annos.items == old(annos.items)
    ensures align in AlignValues ==> annos.items == SetItem(old(annos.items), "ner", NerTool)
    ensures align in AlignValues ==> (r.Ok? <==> "depccg" in lp.parses)
    ensures r.Err? && align in AlignValues ==> r.error == MissingKey("depccg")
    ensures r.Ok? ==> r.value == Mode2Html(lp.dir, pid, align)
  {
    var mode := CheckAlign(align);
    if mode.Err? {
      return Err(mode.error);
    }
    var _ := CheckAnnos(annos);
    if "depccg" !in lp.parses {
      return Err(MissingKey("depccg"));
    }
    return Ok(Mode2Html(lp.dir, pid, align));
  }
}
