/**
 * SNLI record bookkeeping (LoLa/read_nli.py): turning parsed SNLI records
 * into problem dictionaries and sentence annotations, the keep/drop filter
 * on gold and annotator labels, the `sen2anno` dictionary that maps each
 * sentence to its annotation and to the problems it occurs in, and its
 * restriction to the sentences of a set of problems.
 *
 * Records arrive already parsed from JSON; file reading is not modelled.
 */
module ReadNli {
  import opened Common
  import opened PyText

  /** Which sentence of a problem a reference points to: the premise `'p'` or the hypothesis `'h'`. */
  datatype Side = P | H

  /** The tuple `(part, pair id, 'p' or 'h')` that records where a sentence occurs. */
  datatype ProbRef = ProbRef(part: string, pid: string, side: Side)

  /** The annotation dict that `read_sentence_anno` returns. */
  datatype Annotation = Annotation(tree: string, btree: string, tok: seq<string>, pos: seq<string>)

  /** A value of `sen2anno`: the sentence's annotation with its `'pids'` set. */
  datatype Entry = Entry(anno: Annotation, pids: set<ProbRef>)

  /** The fields of one SNLI JSON record that the code reads. */
  datatype SnliRecord = SnliRecord(
    goldLabel: string, pairID: string, captionID: string, annotatorLabels: seq<string>,
    sentence1: string, sentence2: string,
    sentence1Parse: string, sentence1BinaryParse: string,
    sentence2Parse: string, sentence2BinaryParse: string)

  /**
   * The problem dict of `json_prob2dict`: gold label, pair id, caption id,
   * the number and the `Counter` of annotator labels that lie in the label
   * list, the label-type string, premise and hypothesis.
   */
  datatype Problem = Problem(
    g: string, pid: string, cid: string, lnum: nat, lcnt: multiset<string>, ltype: string,
    p: string, h: string)

  /** The failed check of `read_sentence_anno`: token and tag counts differ. */
  datatype AnnoError = TokenPosMismatch(tok: seq<string>, pos: seq<string>)

  /** The error of `snli_jsonl2dict`: no part file at all, or a sentence whose annotation check failed. */
  datatype SnliError = NoPartFiles | BadAnnotation(error: AnnoError)

  // ---------------------------------------------------------------------
  // Tokens of the binary parse

  /** The characters of the class `[)( ]` that the binary parse is split on. */
  const BracketDelims: set<char> := {'(', ')', ' '}

  /**
   * The tokens of a binary parse: the maximal runs of characters other than
   * parentheses and spaces, in order. No token is empty or holds a delimiter.
   */
  function Tokens(s: string): (r: seq<string>)
    ensures forall k :: 0 <= k < |r| ==> r[k] != [] && forall c :: c in r[k] ==> c !in BracketDelims
    decreases |s|
  {
    if s == [] then []
    else if s[0] in BracketDelims then Tokens(s[1..])
    else
      var n := FirstIn(s, BracketDelims);
      [s[..n]] + Tokens(s[n..])
  }

  /** The fields of a list that are not empty (`[t for t in ts if t]`). */
  function NonEmpty(ts: seq<string>): (r: seq<string>)
    ensures forall k :: 0 <= k < |r| ==> r[k] != []
  {
    if ts == [] then [] else (if ts[0] == [] then [] else [ts[0]]) + NonEmpty(ts[1..])
  }

  /**
   * `[t for t in re.split('[)( ]+', btree) if t]`: splitting at runs of
   * delimiters and dropping empty fields gives the same list as splitting
   * at every single delimiter and dropping empty fields, which is `Tokens`.
   */
  lemma {:induction false} TokensAreNonEmptyFields(s: string)
    ensures Tokens(s) == NonEmpty(Split(s, BracketDelims))
    decreases |s|
  {
    if s == [] {
      assert Split(s, BracketDelims) == [""];
    } else if s[0] in BracketDelims {
      assert FirstIn(s, BracketDelims) == 0;
      var rest := Split(s[1..], BracketDelims);
      assert Split(s, BracketDelims) == [""] + rest;
      assert ([""] + rest)[1..] == rest;
      TokensAreNonEmptyFields(s[1..]);
    } else {
      var n := FirstIn(s, BracketDelims);
      if n == |s| {
        assert Split(s, BracketDelims) == [s];
        assert s[..n] == s && s[n..] == [];
      } else {
        var rest := Split(s[n + 1..], BracketDelims);
        assert Split(s, BracketDelims) == [s[..n]] + rest;
        assert ([s[..n]] + rest)[1..] == rest;
        assert s[n..][1..] == s[n + 1..];
        assert Tokens(s[n..]) == Tokens(s[n + 1..]);
        TokensAreNonEmptyFields(s[n + 1..]);
      }
    }
  }

  // ---------------------------------------------------------------------
  // Tags of the phrase-structure parse

  /** The parentheses, which `[^()]` excludes. */
  const Parens: set<char> := {'(', ')'}

  /** The first index from `i` on that holds a parenthesis, or `|s|`. */
  function NextParen(s: string, i: nat): (j: nat)
    requires i <= |s|
    ensures i <= j <= |s|
    ensures forall m :: i <= m < j ==> s[m] !in Parens
    ensures j == |s| || s[j] in Parens
    decreases |s| - i
  {
    if i == |s| || s[i] in Parens then i else NextParen(s, i + 1)
  }

  /** The largest index `k` with `1 <= k < n` where `x` holds whitespace, if any. */
  function LastSpaceBefore(x: string, n: nat): (r: Option<nat>)
    requires n <= |x|
    ensures r.Some? ==> 1 <= r.value < n && IsSpace(x[r.value])
                        && forall j :: r.value < j < n ==> !IsSpace(x[j])
    ensures r.None? ==> forall j :: 1 <= j < n ==> !IsSpace(x[j])
  {
    if n <= 1 then None
    else if IsSpace(x[n - 1]) then Some(n - 1)
    else LastSpaceBefore(x, n - 1)
  }

  /**
   * What `\(([^()]+)\s+[^()]+\)` captures from a bracket whose inside `x`
   * holds no parenthesis: `x` must be a non-empty head, whitespace and a
   * non-empty tail, and the greedy head ends at the last whitespace that
   * still leaves a tail. The captured label is a non-empty prefix of `x`.
   */
  function BracketLabel(x: string): (r: Option<string>)
    ensures r.Some? <==> exists k :: 1 <= k < |x| - 1 && IsSpace(x[k])
    ensures r.Some? ==> 1 <= |r.value| < |x| - 1 && r.value == x[..|r.value|] && IsSpace(x[|r.value|])
                        && forall j :: |r.value| < j < |x| - 1 ==> !IsSpace(x[j])
  {
    if |x| < 2 then None
    else match LastSpaceBefore(x, |x| - 1)
      case None => None
      case Some(k) => Some(x[..k])
  }

  /**
   * `re.findall` of the tag pattern from index `i` on: a match starts at an
   * opening parenthesis whose next parenthesis closes it; the scan resumes
   * after a match and one character further after a failed attempt.
   * Every tag is non-empty and holds no parenthesis.
   */
  function PosFrom(s: string, i: nat): (r: seq<string>)
    ensures forall k :: 0 <= k < |r| ==> r[k] != [] && forall c :: c in r[k] ==> c !in Parens
    decreases |s| - i
  {
    if i >= |s| then []
    else if s[i] != '(' then PosFrom(s, i + 1)
    else
      var j := NextParen(s, i + 1);
      if j < |s| && s[j] == ')' && BracketLabel(s[i + 1..j]).Some? then
        var tag := BracketLabel(s[i + 1..j]).value;
        assert tag == s[i + 1..j][..|tag|];
        [tag] + PosFrom(s, j + 1)
      else PosFrom(s, i + 1)
  }

  /** The number of opening parentheses in `s` from index `i` on. */
  function OpenCount(s: string, i: nat): nat
    decreases |s| - i
  {
    if i >= |s| then 0 else (if s[i] == '(' then 1 else 0) + OpenCount(s, i + 1)
  }

  /** Opening parentheses between `i` and `j` add up. */
  lemma {:induction false} OpenCountSplit(s: string, i: nat, j: nat)
    requires i <= j <= |s|
    ensures OpenCount(s, i) >= OpenCount(s, j)
    decreases j - i
  {
    if i < j { OpenCountSplit(s, i + 1, j); }
  }

  /** A tagged bracket opens at `i`. */
  predicate TagAt(s: string, i: nat)
    requires i < |s|
  {
    var j := NextParen(s, i + 1);
    s[i] == '(' && j < |s| && s[j] == ')' && BracketLabel(s[i + 1..j]).Some?
  }

  /** A tagged bracket adds one tag and one opening parenthesis to the bound after it. */
  lemma PosFromTag(s: string, i: nat)
    requires i < |s| && TagAt(s, i)
    requires |PosFrom(s, NextParen(s, i + 1) + 1)| <= OpenCount(s, NextParen(s, i + 1) + 1)
    ensures |PosFrom(s, i)| <= OpenCount(s, i)
  {
    var j := NextParen(s, i + 1);
    assert |PosFrom(s, i)| == 1 + |PosFrom(s, j + 1)|;
    OpenCountSplit(s, i + 1, j + 1);
  }

  /** Anywhere else the scan moves on by one character, and the bound carries over. */
  lemma PosFromSkip(s: string, i: nat)
    requires i < |s| && !TagAt(s, i)
    requires |PosFrom(s, i + 1)| <= OpenCount(s, i + 1)
    ensures |PosFrom(s, i)| <= OpenCount(s, i)
  {
    assert PosFrom(s, i) == PosFrom(s, i + 1);
  }

  /** Each tag comes from its own opening parenthesis: there are no more tags than those. */
  lemma {:induction false} PosAtMostBrackets(s: string, i: nat)
    ensures |PosFrom(s, i)| <= OpenCount(s, i)
    decreases |s| - i
  {
    if i < |s| {
      if TagAt(s, i) {
        PosAtMostBrackets(s, NextParen(s, i + 1) + 1);
        PosFromTag(s, i);
      } else {
        PosAtMostBrackets(s, i + 1);
        PosFromSkip(s, i);
      }
    }
  }

  /** `re.findall(r'\(([^()]+)\s+[^()]+\)', tree)`. */
  function PosTags(tree: string): seq<string>
  {
    PosFrom(tree, 0)
  }

  /**
   * `read_sentence_anno(tree, btree)`: tokens from the binary parse, tags
   * from the parse; a count mismatch is an error (the assertion at line
   * 114, whose message names an undefined variable and so fails either way).
   */
  function ReadSentenceAnno(tree: string, btree: string): Result<Annotation, AnnoError>
  {
    var tok := Tokens(btree);
    var pos := PosTags(tree);
    if |pos| == |tok| then Ok(Annotation(tree, btree, tok, pos)) else Err(TokenPosMismatch(tok, pos))
  }

  /** The annotation holds both trees, the tokens and the tags; it fails exactly when their counts differ. */
  lemma ReadSentenceAnnoSpec(tree: string, btree: string)
    ensures ReadSentenceAnno(tree, btree).Ok? <==> |PosTags(tree)| == |Tokens(btree)|
    ensures ReadSentenceAnno(tree, btree).Ok? ==>
              var a := ReadSentenceAnno(tree, btree).value;
              a.tree == tree && a.btree == btree && a.tok == Tokens(btree) && a.pos == PosTags(tree)
    ensures ReadSentenceAnno(tree, btree).Err? ==>
              ReadSentenceAnno(tree, btree).error == TokenPosMismatch(Tokens(btree), PosTags(tree))
  {
  }

  // ---------------------------------------------------------------------
  // Problem dictionaries

  /** `[l for l in annotator_labels if l in label_set]`. */
  function KeepLabels(ls: seq<string>, labels: seq<string>): seq<string>
  {
    if ls == [] then [] else (if ls[0] in labels then [ls[0]] else []) + KeepLabels(ls[1..], labels)
  }

  /** The kept labels count every label of the list as often as the annotators gave it, and nothing else. */
  lemma {:induction false} KeptLabelCounts(ls: seq<string>, labels: seq<string>)
    ensures forall l :: multiset(KeepLabels(ls, labels))[l] == if l in labels then multiset(ls)[l] else 0
  {
    if ls != [] {
      KeptLabelCounts(ls[1..], labels);
      assert ls == [ls[0]] + ls[1..];
    }
  }

  /** `''.join([str(lcnt[l]) for l in labels])`. */
  function LabelType(lcnt: multiset<string>, labels: seq<string>): string
  {
    if labels == [] then "" else NatToDecimal(lcnt[labels[0]]) + LabelType(lcnt, labels[1..])
  }

  /** With single-digit counts, the label type has one digit per label, in label order. */
  lemma {:induction false} LabelTypeDigits(lcnt: multiset<string>, labels: seq<string>)
    requires forall k :: 0 <= k < |labels| ==> lcnt[labels[k]] < 10
    ensures |LabelType(lcnt, labels)| == |labels|
    ensures forall k :: 0 <= k < |labels| ==> LabelType(lcnt, labels)[k] == Digit(lcnt[labels[k]])
  {
    if labels != [] {
      LabelTypeDigits(lcnt, labels[1..]);
      var rest := LabelType(lcnt, labels[1..]);
      assert LabelType(lcnt, labels) == [Digit(lcnt[labels[0]])] + rest;
      forall k | 0 < k < |labels| ensures LabelType(lcnt, labels)[k] == Digit(lcnt[labels[k]]) {
        assert labels[k] == labels[1..][k - 1];
      }
    }
  }

  /**
   * `json_prob2dict(prob, labels)`: the problem dict and the annotations of
   * premise and hypothesis. `lnum` is the number of annotator labels that lie
   * in `labels` and the size of `lcnt`; `lcnt` counts each such label as
   * often as it was given and holds no other; `ltype` lists those counts in
   * the order of `labels`. It fails when either annotation fails.
   */
  function Prob2Dict(rec: SnliRecord, labels: seq<string>): Result<(Problem, Annotation, Annotation), AnnoError>
  {
    var kept := KeepLabels(rec.annotatorLabels, labels);
    var lcnt := multiset(kept);
    var p := Problem(rec.goldLabel, rec.pairID, rec.captionID, |kept|, lcnt, LabelType(lcnt, labels),
                     rec.sentence1, rec.sentence2);
    match ReadSentenceAnno(rec.sentence1Parse, rec.sentence1BinaryParse)
    case Err(e) => Err(e)
    case Ok(pAnno) =>
      match ReadSentenceAnno(rec.sentence2Parse, rec.sentence2BinaryParse)
      case Err(e) => Err(e)
      case Ok(hAnno) => Ok((p, pAnno, hAnno))
  }

  /** What `json_prob2dict` promises, as stated in the comment on `Prob2Dict`. */
  lemma Prob2DictSpec(rec: SnliRecord, labels: seq<string>)
    ensures Prob2Dict(rec, labels).Ok?
            <==> ReadSentenceAnno(rec.sentence1Parse, rec.sentence1BinaryParse).Ok?
                 && ReadSentenceAnno(rec.sentence2Parse, rec.sentence2BinaryParse).Ok?
    ensures Prob2Dict(rec, labels).Ok? ==>
              var p := Prob2Dict(rec, labels).value.0;
              && p.g == rec.goldLabel && p.pid == rec.pairID && p.cid == rec.captionID
              && p.p == rec.sentence1 && p.h == rec.sentence2
              && p.lnum == |p.lcnt|
              && (forall l :: p.lcnt[l] == if l in labels then multiset(rec.annotatorLabels)[l] else 0)
              && p.ltype == LabelType(p.lcnt, labels)
              && Prob2Dict(rec, labels).value.1 == ReadSentenceAnno(rec.sentence1Parse, rec.sentence1BinaryParse).value
              && Prob2Dict(rec, labels).value.2 == ReadSentenceAnno(rec.sentence2Parse, rec.sentence2BinaryParse).value
  {
    KeptLabelCounts(rec.annotatorLabels, labels);
  }

  // ---------------------------------------------------------------------
  // The keep/drop filter of snli_jsonl2dict

  /**
   * A record is kept when its gold label lies in the label set and, when
   * `cleanLabels` holds, no annotator label lies outside it.
   */
  predicate Keep(rec: SnliRecord, cleanLabels: bool, goldLabels: seq<string>)
  {
    var labelSet := set l | l in goldLabels;
    var weird := (set l | l in rec.annotatorLabels) - labelSet;
    rec.goldLabel in labelSet && !(cleanLabels && weird != {})
  }

  /** The filter in terms of the label lists themselves. */
  lemma KeepIff(rec: SnliRecord, cleanLabels: bool, goldLabels: seq<string>)
    ensures Keep(rec, cleanLabels, goldLabels) <==>
              rec.goldLabel in goldLabels
              && (cleanLabels ==> forall k :: 0 <= k < |rec.annotatorLabels| ==> rec.annotatorLabels[k] in goldLabels)
  {
    var ls := rec.annotatorLabels;
    var labelSet := set l | l in goldLabels;
    var weird := (set l | l in ls) - labelSet;
    assert rec.goldLabel in labelSet <==> rec.goldLabel in goldLabels;
    if weird != {} {
      var l :| l in weird;
      var k :| 0 <= k < |ls| && ls[k] == l;
      assert ls[k] !in goldLabels;
    } else {
      forall k | 0 <= k < |ls| ensures ls[k] in goldLabels {
        assert ls[k] in (set l | l in ls);
        assert ls[k] !in weird;
      }
    }
  }

  // ---------------------------------------------------------------------
  // sen2anno

  /**
   * `update_sen2anno` on dictionary values: a known sentence gets the
   * reference added to its `'pids'`; a new sentence is stored with the given
   * annotation and `'pids' == {ref}`. Afterwards the sentence is present with
   * the reference, the keys grew by at most the sentence, and every other
   * sentence is unchanged.
   */
  function Updated(m: map<string, Entry>, sen: string, anno: Annotation, ref: ProbRef): map<string, Entry>
  {
    if sen in m then m[sen := m[sen].(pids := m[sen].pids + {ref})] else m[sen := Entry(anno, {ref})]
  }

  /** What an update does, entry by entry. */
  lemma UpdatedSpec(m: map<string, Entry>, sen: string, anno: Annotation, ref: ProbRef)
    ensures sen in Updated(m, sen, anno, ref) && ref in Updated(m, sen, anno, ref)[sen].pids
    ensures Updated(m, sen, anno, ref).Keys == m.Keys + {sen}
    ensures forall s :: s in m && s != sen ==> Updated(m, sen, anno, ref)[s] == m[s]
    ensures sen in m ==> Updated(m, sen, anno, ref)[sen].anno == m[sen].anno
                         && Updated(m, sen, anno, ref)[sen].pids == m[sen].pids + {ref}
    ensures sen !in m ==> Updated(m, sen, anno, ref)[sen] == Entry(anno, {ref})
  {
  }

  /** Repeating an update changes nothing more. */
  lemma UpdatedIdempotent(m: map<string, Entry>, sen: string, anno: Annotation, ref: ProbRef)
    ensures Updated(Updated(m, sen, anno, ref), sen, anno, ref) == Updated(m, sen, anno, ref)
  {
    var once := Updated(m, sen, anno, ref);
    assert once[sen].pids + {ref} == once[sen].pids;
  }

  /** The dictionary `sen2anno`, updated in place. */
  class Sen2Anno {
    var entries: map<string, Entry>

    constructor ()
      ensures entries == map[]
    {
      entries := map[];
    }

    /** `update_sen2anno(sen2anno, sen, sen_anno, part_id_ph)`. */
    method Update(sen: string, anno: Annotation, ref: ProbRef)
      modifies this
      ensures entries == Updated(old(entries), sen, anno, ref)
    {
      if sen in entries {
        entries := entries[sen := entries[sen].(pids := entries[sen].pids + {ref})];
      } else {
        entries := entries[sen := Entry(anno, {ref})];
      }
    }
  }

  /** The premises and hypotheses of a list of problems. */
  function Sentences(problems: seq<Problem>): set<string>
  {
    if problems == [] then {}
    else Sentences(problems[..|problems| - 1]) + {problems[|problems| - 1].p, problems[|problems| - 1].h}
  }

  /** The sentences of a prefix are sentences of the whole list. */
  lemma {:induction false} SentencesPrefix(problems: seq<Problem>, i: nat)
    requires i <= |problems|
    ensures Sentences(problems[..i]) <= Sentences(problems)
    decreases |problems| - i
  {
    if i < |problems| {
      SentencesPrefix(problems, i + 1);
      assert problems[..i + 1][..i] == problems[..i];
    } else {
      assert problems[..i] == problems;
    }
  }

  /**
   * The first sentence that `m` lacks, going through the problems in order,
   * premise before hypothesis: the key of the `KeyError` the copy loop raises.
   */
  function FirstMissing(problems: seq<Problem>, m: map<string, Entry>): (r: Option<string>)
    ensures r.Some? ==> r.value !in m
    ensures r.None? <==> forall k :: 0 <= k < |problems| ==> problems[k].p in m && problems[k].h in m
  {
    if problems == [] then None
    else if problems[0].p !in m then Some(problems[0].p)
    else if problems[0].h !in m then Some(problems[0].h)
    else
      var rest := FirstMissing(problems[1..], m);
      assert forall k :: 1 <= k < |problems| ==> problems[k] == problems[1..][k - 1];
      rest
  }

  /**
   * `sen2anno_from_nli_problems(nli_dict, sen2anno)` over the problems of
   * `nli_dict` in order: a new dictionary whose keys are exactly the premises
   * and hypotheses and whose values are copies of the input's entries. A
   * sentence missing from `sen2anno` is an error (a `KeyError`), and the
   * error names the first one the loop meets.
   */
  method SentencesToAnno(problems: seq<Problem>, sen2anno: map<string, Entry>)
    returns (r: Result<map<string, Entry>, string>)
    ensures r.Ok? <==> Sentences(problems) <= sen2anno.Keys
    ensures r.Ok? ==> r.value.Keys == Sentences(problems)
                      && forall s :: s in r.value ==> r.value[s] == sen2anno[s]
    ensures r.Err? ==> r.error in Sentences(problems) && r.error !in sen2anno
    ensures r.Err? ==> FirstMissing(problems, sen2anno) == Some(r.error)
  {
    var s2a: map<string, Entry> := map[];
    for i := 0 to |problems|
      invariant FirstMissing(problems, sen2anno) == FirstMissing(problems[i..], sen2anno)
      invariant s2a.Keys == Sentences(problems[..i])
      invariant forall s :: s in s2a ==> s in sen2anno && s2a[s] == sen2anno[s]
    {
      var prob := problems[i];
      assert problems[..i + 1][..i] == problems[..i];
      assert problems[i..][1..] == problems[i + 1..];
      SentencesPrefix(problems, i + 1);
      if prob.p !in sen2anno {
        return Err(prob.p);
      }
      s2a := s2a[prob.p := sen2anno[prob.p]];
      if prob.h !in sen2anno {
        return Err(prob.h);
      }
      s2a := s2a[prob.h := sen2anno[prob.h]];
    }
    assert problems[..|problems|] == problems;
    return Ok(s2a);
  }

  // ---------------------------------------------------------------------
  // The record loop of snli_jsonl2dict

  /** The pair ids of the kept records among the first `n`. */
  function KeptPids(records: seq<SnliRecord>, n: nat, cleanLabels: bool, goldLabels: seq<string>): set<string>
    requires n <= |records|
  {
    if n == 0 then {}
    else KeptPids(records, n - 1, cleanLabels, goldLabels)
         + (if Keep(records[n - 1], cleanLabels, goldLabels) then {records[n - 1].pairID} else {})
  }

  /** The premises and hypotheses of the kept records among the first `n`. */
  function KeptSentences(records: seq<SnliRecord>, n: nat, cleanLabels: bool, goldLabels: seq<string>): set<string>
    requires n <= |records|
  {
    if n == 0 then {}
    else KeptSentences(records, n - 1, cleanLabels, goldLabels)
         + (if Keep(records[n - 1], cleanLabels, goldLabels) then {records[n - 1].sentence1, records[n - 1].sentence2} else {})
  }

  /** A pair id is kept exactly when some kept record among the first `n` carries it. */
  lemma {:induction false} KeptPidsIff(records: seq<SnliRecord>, n: nat, cleanLabels: bool, goldLabels: seq<string>, pid: string)
    requires n <= |records|
    ensures pid in KeptPids(records, n, cleanLabels, goldLabels) <==>
              exists k :: 0 <= k < n && Keep(records[k], cleanLabels, goldLabels) && records[k].pairID == pid
  {
    if n > 0 {
      KeptPidsIff(records, n - 1, cleanLabels, goldLabels, pid);
    }
  }

  /** `sen` is a key of `m` and `ref` is among its references. */
  predicate Referenced(m: map<string, Entry>, sen: string, ref: ProbRef)
  {
    sen in m && ref in m[sen].pids
  }

  /** Every kept record among the first `n` of a part has its premise and hypothesis referenced. */
  predicate RefsRecorded(m: map<string, Entry>, part: string, records: seq<SnliRecord>, n: nat,
                         cleanLabels: bool, goldLabels: seq<string>)
    requires n <= |records|
  {
    forall k :: 0 <= k < n && Keep(records[k], cleanLabels, goldLabels) ==>
      && Referenced(m, records[k].sentence1, ProbRef(part, records[k].pairID, P))
      && Referenced(m, records[k].sentence2, ProbRef(part, records[k].pairID, H))
  }

  /** `m2` keeps every sentence of `m1` with the same annotation and at least its references. */
  predicate Grows(m1: map<string, Entry>, m2: map<string, Entry>)
  {
    forall s :: s in m1 ==> s in m2 && m2[s].anno == m1[s].anno && m1[s].pids <= m2[s].pids
  }

  /** Growth composes. */
  lemma GrowsTrans(m1: map<string, Entry>, m2: map<string, Entry>, m3: map<string, Entry>)
    requires Grows(m1, m2) && Grows(m2, m3)
    ensures Grows(m1, m3)
  {
  }

  /** An update keeps every sentence with its annotation and references. */
  lemma UpdatedGrows(m: map<string, Entry>, sen: string, anno: Annotation, ref: ProbRef)
    ensures Grows(m, Updated(m, sen, anno, ref))
  {
    UpdatedSpec(m, sen, anno, ref);
  }

  /** Growing a dictionary keeps every recorded reference. */
  lemma RefsRecordedGrows(m1: map<string, Entry>, m2: map<string, Entry>, part: string, records: seq<SnliRecord>,
                          n: nat, cleanLabels: bool, goldLabels: seq<string>)
    requires n <= |records|
    requires Grows(m1, m2)
    requires RefsRecorded(m1, part, records, n, cleanLabels, goldLabels)
    ensures RefsRecorded(m2, part, records, n, cleanLabels, goldLabels)
  {
  }

  /** `Prob2Dict` accepts the record's annotations. */
  predicate Readable(rec: SnliRecord, labels: seq<string>)
  {
    Prob2Dict(rec, labels).Ok?
  }

  /** Every kept record among the first `n` has readable annotations. */
  predicate KeptReadable(records: seq<SnliRecord>, n: nat, cleanLabels: bool, goldLabels: seq<string>)
    requires n <= |records|
  {
    forall k :: 0 <= k < n && Keep(records[k], cleanLabels, goldLabels) ==> Readable(records[k], goldLabels)
  }

  /** What the record loop makes of one record: it drops it, raises, or files its problem and annotations. */
  datatype Verdict = Dropped | Raised(error: AnnoError) | Filed(prob: Problem, pAnno: Annotation, hAnno: Annotation)

  /** The filter on the labels, then `json_prob2dict` on a kept record. */
  function Judge(rec: SnliRecord, cleanLabels: bool, goldLabels: seq<string>): Verdict
  {
    if !Keep(rec, cleanLabels, goldLabels) then Dropped
    else match Prob2Dict(rec, goldLabels)
      case Err(e) => Raised(e)
      case Ok((prob, pAnno, hAnno)) => Filed(prob, pAnno, hAnno)
  }

  /** The verdicts on a list of records, in order. */
  function Verdicts(records: seq<SnliRecord>, cleanLabels: bool, goldLabels: seq<string>): (r: seq<Verdict>)
    ensures |r| == |records|
  {
    if records == [] then [] else [Judge(records[0], cleanLabels, goldLabels)] + Verdicts(records[1..], cleanLabels, goldLabels)
  }

  /** The `k`-th verdict is the one on the `k`-th record. */
  lemma {:induction false} VerdictsAt(records: seq<SnliRecord>, cleanLabels: bool, goldLabels: seq<string>, k: nat)
    requires k < |records|
    ensures Verdicts(records, cleanLabels, goldLabels)[k] == Judge(records[k], cleanLabels, goldLabels)
  {
    if k > 0 {
      VerdictsAt(records[1..], cleanLabels, goldLabels, k - 1);
    }
  }

  /**
   * The `k`-th verdict in terms of the `k`-th record: dropped exactly when
   * the filter rejects it, raised exactly when it is kept and unreadable, and
   * otherwise filing the problem `Prob2Dict` reads, under the record's pair
   * id and with the record's sentences.
   */
  lemma VerdictAt(records: seq<SnliRecord>, cleanLabels: bool, goldLabels: seq<string>, k: nat)
    requires k < |records|
    ensures var v := Verdicts(records, cleanLabels, goldLabels)[k];
            && (v.Dropped? <==> !Keep(records[k], cleanLabels, goldLabels))
            && (v.Raised? <==> Keep(records[k], cleanLabels, goldLabels) && !Readable(records[k], goldLabels))
            && (v.Filed? ==> Prob2Dict(records[k], goldLabels) == Ok((v.prob, v.pAnno, v.hAnno))
                             && v.prob.pid == records[k].pairID
                             && v.prob.p == records[k].sentence1 && v.prob.h == records[k].sentence2)
  {
    VerdictsAt(records, cleanLabels, goldLabels, k);
  }

  /**
   * The state of the record loop of one part: the part's problem dictionary,
   * `sen2anno`, and the annotation error that stopped the loop, if any.
   */
  datatype PartPass = PartPass(problems: map<string, Problem>, entries: map<string, Entry>, failure: Option<AnnoError>)

  /** What the loop hands back from a state: the problems, or the error raised. */
  function Outcome(s: PartPass): Result<map<string, Problem>, AnnoError>
  {
    if s.failure.Some? then Err(s.failure.value) else Ok(s.problems)
  }

  /**
   * One pass of the record loop on a record's verdict: a dropped record
   * changes nothing; a raising one stops the loop before anything is stored;
   * otherwise its problem is filed under its pair id and its premise and
   * hypothesis are recorded in `sen2anno`, in that order.
   */
  function RecordRead(part: string, v: Verdict, problems: map<string, Problem>, m: map<string, Entry>): PartPass
  {
    match v
    case Dropped => PartPass(problems, m, None)
    case Raised(e) => PartPass(problems, m, Some(e))
    case Filed(prob, pAnno, hAnno) =>
      PartPass(problems[prob.pid := prob],
               Updated(Updated(m, prob.p, pAnno, ProbRef(part, prob.pid, P)), prob.h, hAnno, ProbRef(part, prob.pid, H)),
               None)
  }

  /** One pass only grows `sen2anno`, by the sentences of the problem it files, which then carry their references. */
  lemma RecordReadGrows(part: string, v: Verdict, problems: map<string, Problem>, m: map<string, Entry>)
    ensures Grows(m, RecordRead(part, v, problems, m).entries)
    ensures RecordRead(part, v, problems, m).entries.Keys <= m.Keys + (if v.Filed? then {v.prob.p, v.prob.h} else {})
    ensures v.Filed? ==>
              && Referenced(RecordRead(part, v, problems, m).entries, v.prob.p, ProbRef(part, v.prob.pid, P))
              && Referenced(RecordRead(part, v, problems, m).entries, v.prob.h, ProbRef(part, v.prob.pid, H))
  {
    if v.Filed? {
      var r1, r2 := ProbRef(part, v.prob.pid, P), ProbRef(part, v.prob.pid, H);
      var m1 := Updated(m, v.prob.p, v.pAnno, r1);
      UpdatedGrows(m, v.prob.p, v.pAnno, r1);
      UpdatedGrows(m1, v.prob.h, v.hAnno, r2);
      UpdatedSpec(m, v.prob.p, v.pAnno, r1);
      UpdatedSpec(m1, v.prob.h, v.hAnno, r2);
      GrowsTrans(m, m1, Updated(m1, v.prob.h, v.hAnno, r2));
    }
  }

  /** The first `n` passes of the record loop, stopping at the first failure. */
  function PartRead(part: string, vs: seq<Verdict>, n: nat, problems: map<string, Problem>, m: map<string, Entry>): PartPass
    requires n <= |vs|
  {
    if n == 0 then PartPass(problems, m, None)
    else
      var s := PartRead(part, vs, n - 1, problems, m);
      if s.failure.Some? then s else RecordRead(part, vs[n - 1], s.problems, s.entries)
  }

  /** The pair ids of the problems filed by the first `n` verdicts. */
  function FiledPids(vs: seq<Verdict>, n: nat): set<string>
    requires n <= |vs|
  {
    if n == 0 then {} else FiledPids(vs, n - 1) + (if vs[n - 1].Filed? then {vs[n - 1].prob.pid} else {})
  }

  /** The premises and hypotheses of the problems filed by the first `n` verdicts. */
  function FiledSentences(vs: seq<Verdict>, n: nat): set<string>
    requires n <= |vs|
  {
    if n == 0 then {} else FiledSentences(vs, n - 1) + (if vs[n - 1].Filed? then {vs[n - 1].prob.p, vs[n - 1].prob.h} else {})
  }

  /** Both sentences of every problem filed by the first `n` verdicts carry its references in `m`. */
  predicate FiledRefs(m: map<string, Entry>, part: string, vs: seq<Verdict>, n: nat)
    requires n <= |vs|
  {
    forall k :: 0 <= k < n && vs[k].Filed? ==>
      && Referenced(m, vs[k].prob.p, ProbRef(part, vs[k].prob.pid, P))
      && Referenced(m, vs[k].prob.h, ProbRef(part, vs[k].prob.pid, H))
  }

  /** Growing a dictionary keeps the references of filed problems. */
  lemma RefsGrow(m1: map<string, Entry>, m2: map<string, Entry>, part: string, vs: seq<Verdict>, n: nat)
    requires n <= |vs|
    requires Grows(m1, m2) && FiledRefs(m1, part, vs, n)
    ensures FiledRefs(m2, part, vs, n)
  {
  }

  /** Once the loop has raised, later records change nothing. */
  lemma {:induction false} PartReadStuck(part: string, vs: seq<Verdict>, n: nat, n2: nat,
                                         problems: map<string, Problem>, m: map<string, Entry>)
    requires n <= n2 <= |vs|
    requires PartRead(part, vs, n, problems, m).failure.Some?
    ensures PartRead(part, vs, n2, problems, m) == PartRead(part, vs, n, problems, m)
    decreases n2
  {
    if n < n2 {
      PartReadStuck(part, vs, n, n2 - 1, problems, m);
    }
  }

  /** The loop raises exactly when one of the verdicts raises. */
  lemma {:induction false} PartReadFails(part: string, vs: seq<Verdict>, n: nat,
                                         problems: map<string, Problem>, m: map<string, Entry>)
    requires n <= |vs|
    ensures PartRead(part, vs, n, problems, m).failure.None? <==> forall k :: 0 <= k < n ==> !vs[k].Raised?
  {
    if n > 0 {
      PartReadFails(part, vs, n - 1, problems, m);
    }
  }

  /** Without a failure, the problem keys gained exactly the filed pair ids. */
  lemma {:induction false} PartReadKeys(part: string, vs: seq<Verdict>, n: nat,
                                        problems: map<string, Problem>, m: map<string, Entry>)
    requires n <= |vs|
    ensures PartRead(part, vs, n, problems, m).failure.None? ==>
              PartRead(part, vs, n, problems, m).problems.Keys == problems.Keys + FiledPids(vs, n)
  {
    if n > 0 {
      PartReadKeys(part, vs, n - 1, problems, m);
    }
  }

  /** Without a failure, both sentences of every filed problem carry its references. */
  lemma {:induction false} PartReadRefs(part: string, vs: seq<Verdict>, n: nat,
                                        problems: map<string, Problem>, m: map<string, Entry>)
    requires n <= |vs|
    ensures PartRead(part, vs, n, problems, m).failure.None? ==>
              FiledRefs(PartRead(part, vs, n, problems, m).entries, part, vs, n)
  {
    if n > 0 {
      PartReadRefs(part, vs, n - 1, problems, m);
      var s := PartRead(part, vs, n - 1, problems, m);
      if s.failure.None? {
        RecordReadGrows(part, vs[n - 1], s.problems, s.entries);
        RefsGrow(s.entries, RecordRead(part, vs[n - 1], s.problems, s.entries).entries, part, vs, n - 1);
      }
    }
  }

  /** `sen2anno` only grows. */
  lemma {:induction false} PartReadGrows(part: string, vs: seq<Verdict>, n: nat,
                                         problems: map<string, Problem>, m: map<string, Entry>)
    requires n <= |vs|
    ensures Grows(m, PartRead(part, vs, n, problems, m).entries)
  {
    if n > 0 {
      PartReadGrows(part, vs, n - 1, problems, m);
      var s := PartRead(part, vs, n - 1, problems, m);
      if s.failure.None? {
        RecordReadGrows(part, vs[n - 1], s.problems, s.entries);
        GrowsTrans(m, s.entries, RecordRead(part, vs[n - 1], s.problems, s.entries).entries);
      }
    }
  }

  /** `sen2anno` gains only the sentences of filed problems. */
  lemma {:induction false} PartReadSentences(part: string, vs: seq<Verdict>, n: nat,
                                             problems: map<string, Problem>, m: map<string, Entry>)
    requires n <= |vs|
    ensures PartRead(part, vs, n, problems, m).entries.Keys <= m.Keys + FiledSentences(vs, n)
  {
    if n > 0 {
      PartReadSentences(part, vs, n - 1, problems, m);
      var s := PartRead(part, vs, n - 1, problems, m);
      if s.failure.None? {
        RecordReadGrows(part, vs[n - 1], s.problems, s.entries);
      }
    }
  }

  /** A pair id that no verdict files keeps its problem, or its absence. */
  lemma {:induction false} PartReadOthers(part: string, vs: seq<Verdict>, n: nat,
                                          problems: map<string, Problem>, m: map<string, Entry>, pid: string)
    requires n <= |vs|
    requires pid !in FiledPids(vs, n)
    ensures pid in PartRead(part, vs, n, problems, m).problems <==> pid in problems
    ensures pid in problems ==> PartRead(part, vs, n, problems, m).problems[pid] == problems[pid]
  {
    if n > 0 {
      PartReadOthers(part, vs, n - 1, problems, m, pid);
    }
  }

  /**
   * Without a failure, the problem under a filed pair id is the one filed
   * last with it: a later record with the same pair id overwrites it.
   */
  lemma {:induction false} PartReadLast(part: string, vs: seq<Verdict>, n: nat,
                                        problems: map<string, Problem>, m: map<string, Entry>, k: nat)
    requires k < n <= |vs|
    requires vs[k].Filed?
    requires forall j :: k < j < n && vs[j].Filed? ==> vs[j].prob.pid != vs[k].prob.pid
    requires PartRead(part, vs, n, problems, m).failure.None?
    ensures vs[k].prob.pid in PartRead(part, vs, n, problems, m).problems
    ensures PartRead(part, vs, n, problems, m).problems[vs[k].prob.pid] == vs[k].prob
  {
    if k < n - 1 {
      PartReadLast(part, vs, n - 1, problems, m, k);
    }
  }

  /** No verdict raises exactly when every kept record is readable. */
  lemma VerdictsRaise(records: seq<SnliRecord>, n: nat, cleanLabels: bool, goldLabels: seq<string>)
    requires n <= |records|
    ensures (forall k :: 0 <= k < n ==> !Verdicts(records, cleanLabels, goldLabels)[k].Raised?)
            <==> KeptReadable(records, n, cleanLabels, goldLabels)
  {
    var vs := Verdicts(records, cleanLabels, goldLabels);
    if KeptReadable(records, n, cleanLabels, goldLabels) {
      forall k | 0 <= k < n
        ensures !vs[k].Raised?
      {
        VerdictAt(records, cleanLabels, goldLabels, k);
      }
    } else {
      var k :| 0 <= k < n && Keep(records[k], cleanLabels, goldLabels) && !Readable(records[k], goldLabels);
      VerdictAt(records, cleanLabels, goldLabels, k);
    }
  }

  /** When every kept record is readable, the filed pair ids are the kept ones. */
  lemma {:induction false} VerdictsPids(records: seq<SnliRecord>, n: nat, cleanLabels: bool, goldLabels: seq<string>)
    requires n <= |records|
    requires KeptReadable(records, n, cleanLabels, goldLabels)
    ensures FiledPids(Verdicts(records, cleanLabels, goldLabels), n) == KeptPids(records, n, cleanLabels, goldLabels)
  {
    if n > 0 {
      VerdictsPids(records, n - 1, cleanLabels, goldLabels);
      VerdictAt(records, cleanLabels, goldLabels, n - 1);
    }
  }

  /** The filed sentences are sentences of kept records. */
  lemma {:induction false} VerdictsSentences(records: seq<SnliRecord>, n: nat, cleanLabels: bool, goldLabels: seq<string>)
    requires n <= |records|
    ensures FiledSentences(Verdicts(records, cleanLabels, goldLabels), n) <= KeptSentences(records, n, cleanLabels, goldLabels)
  {
    if n > 0 {
      VerdictsSentences(records, n - 1, cleanLabels, goldLabels);
      VerdictAt(records, cleanLabels, goldLabels, n - 1);
    }
  }

  /** When every kept record is readable, references for every filed problem are references for every kept record. */
  lemma VerdictsRefs(m: map<string, Entry>, part: string, records: seq<SnliRecord>, n: nat,
                     cleanLabels: bool, goldLabels: seq<string>)
    requires n <= |records|
    requires KeptReadable(records, n, cleanLabels, goldLabels)
    requires FiledRefs(m, part, Verdicts(records, cleanLabels, goldLabels), n)
    ensures RefsRecorded(m, part, records, n, cleanLabels, goldLabels)
  {
    forall k | 0 <= k < n && Keep(records[k], cleanLabels, goldLabels)
      ensures Referenced(m, records[k].sentence1, ProbRef(part, records[k].pairID, P))
      ensures Referenced(m, records[k].sentence2, ProbRef(part, records[k].pairID, H))
    {
      VerdictAt(records, cleanLabels, goldLabels, k);
    }
  }

  /** The whole record loop of a part raises exactly when a kept record is unreadable. */
  lemma PartReadOk(part: string, records: seq<SnliRecord>, cleanLabels: bool, goldLabels: seq<string>,
                   problems: map<string, Problem>, m: map<string, Entry>)
    ensures PartRead(part, Verdicts(records, cleanLabels, goldLabels), |records|, problems, m).failure.None?
            <==> KeptReadable(records, |records|, cleanLabels, goldLabels)
  {
    PartReadFails(part, Verdicts(records, cleanLabels, goldLabels), |records|, problems, m);
    VerdictsRaise(records, |records|, cleanLabels, goldLabels);
  }

  /** Without a failure, the whole record loop of a part gains exactly the kept pair ids. */
  lemma PartReadPids(part: string, records: seq<SnliRecord>, cleanLabels: bool, goldLabels: seq<string>,
                     problems: map<string, Problem>, m: map<string, Entry>)
    ensures var s := PartRead(part, Verdicts(records, cleanLabels, goldLabels), |records|, problems, m);
            s.failure.None? ==> s.problems.Keys == problems.Keys + KeptPids(records, |records|, cleanLabels, goldLabels)
  {
    var vs := Verdicts(records, cleanLabels, goldLabels);
    PartReadKeys(part, vs, |records|, problems, m);
    if PartRead(part, vs, |records|, problems, m).failure.None? {
      PartReadOk(part, records, cleanLabels, goldLabels, problems, m);
      VerdictsPids(records, |records|, cleanLabels, goldLabels);
    }
  }

  /** Without a failure, both sentences of every kept record of the part carry its references. */
  lemma PartReadRecorded(part: string, records: seq<SnliRecord>, cleanLabels: bool, goldLabels: seq<string>,
                         problems: map<string, Problem>, m: map<string, Entry>)
    ensures var s := PartRead(part, Verdicts(records, cleanLabels, goldLabels), |records|, problems, m);
            s.failure.None? ==> RefsRecorded(s.entries, part, records, |records|, cleanLabels, goldLabels)
  {
    var vs := Verdicts(records, cleanLabels, goldLabels);
    var s := PartRead(part, vs, |records|, problems, m);
    PartReadRefs(part, vs, |records|, problems, m);
    if s.failure.None? {
      PartReadOk(part, records, cleanLabels, goldLabels, problems, m);
      VerdictsRefs(s.entries, part, records, |records|, cleanLabels, goldLabels);
    }
  }

  /**
   * The whole record loop of a part in terms of its records: it raises
   * exactly when a kept record is unreadable; otherwise the problem keys
   * gained exactly the kept pair ids and every kept record's sentences carry
   * its references; either way `sen2anno` only grew, by kept sentences.
   */
  lemma PartReadSummary(part: string, records: seq<SnliRecord>, cleanLabels: bool, goldLabels: seq<string>,
                        problems: map<string, Problem>, m: map<string, Entry>)
    ensures var s := PartRead(part, Verdicts(records, cleanLabels, goldLabels), |records|, problems, m);
            && (s.failure.None? <==> KeptReadable(records, |records|, cleanLabels, goldLabels))
            && (s.failure.None? ==> s.problems.Keys == problems.Keys + KeptPids(records, |records|, cleanLabels, goldLabels))
            && (s.failure.None? ==> RefsRecorded(s.entries, part, records, |records|, cleanLabels, goldLabels))
            && Grows(m, s.entries)
            && s.entries.Keys <= m.Keys + KeptSentences(records, |records|, cleanLabels, goldLabels)
  {
    var vs := Verdicts(records, cleanLabels, goldLabels);
    PartReadOk(part, records, cleanLabels, goldLabels, problems, m);
    PartReadPids(part, records, cleanLabels, goldLabels, problems, m);
    PartReadRecorded(part, records, cleanLabels, goldLabels, problems, m);
    PartReadGrows(part, vs, |records|, problems, m);
    PartReadSentences(part, vs, |records|, problems, m);
    VerdictsSentences(records, |records|, cleanLabels, goldLabels);
  }

  /**
   * One pass in terms of the record: a dropped record changes nothing; a
   * kept one raises exactly when its annotations fail, and otherwise files
   * the problem `Prob2Dict` reads under the record's pair id and records
   * both sentences with their references.
   */
  lemma RecordReadIff(part: string, rec: SnliRecord, cleanLabels: bool, goldLabels: seq<string>,
                      problems: map<string, Problem>, m: map<string, Entry>)
    ensures !Keep(rec, cleanLabels, goldLabels) ==>
              RecordRead(part, Judge(rec, cleanLabels, goldLabels), problems, m) == PartPass(problems, m, None)
    ensures RecordRead(part, Judge(rec, cleanLabels, goldLabels), problems, m).failure.Some?
            <==> Keep(rec, cleanLabels, goldLabels) && !Readable(rec, goldLabels)
    ensures Keep(rec, cleanLabels, goldLabels) && Readable(rec, goldLabels) ==>
              && RecordRead(part, Judge(rec, cleanLabels, goldLabels), problems, m).problems
                 == problems[rec.pairID := Prob2Dict(rec, goldLabels).value.0]
              && Referenced(RecordRead(part, Judge(rec, cleanLabels, goldLabels), problems, m).entries,
                            rec.sentence1, ProbRef(part, rec.pairID, P))
              && Referenced(RecordRead(part, Judge(rec, cleanLabels, goldLabels), problems, m).entries,
                            rec.sentence2, ProbRef(part, rec.pairID, H))
  {
    RecordReadGrows(part, Judge(rec, cleanLabels, goldLabels), problems, m);
  }

  /**
   * One pass of the record loop of `snli_jsonl2dict` on the record `rec`:
   * the filter on gold and annotator labels, then `json_prob2dict`, the
   * problem filed under its pair id and the two `update_sen2anno` calls.
   */
  method ReadRecord(part: string, rec: SnliRecord, cleanLabels: bool, goldLabels: seq<string>,
                    snliPart: map<string, Problem>, sen2anno: Sen2Anno)
    returns (r: Result<map<string, Problem>, AnnoError>)
    modifies sen2anno
    ensures sen2anno.entries == RecordRead(part, Judge(rec, cleanLabels, goldLabels), snliPart, old(sen2anno.entries)).entries
    ensures r == Outcome(RecordRead(part, Judge(rec, cleanLabels, goldLabels), snliPart, old(sen2anno.entries)))
  {
    var labelSet := set l | l in goldLabels;
    if rec.goldLabel !in labelSet {
      return Ok(snliPart);
    }
    var weird := (set l | l in rec.annotatorLabels) - labelSet;
    if cleanLabels && weird != {} {
      return Ok(snliPart);
    }
    assert Keep(rec, cleanLabels, goldLabels);
    var d := Prob2Dict(rec, goldLabels);
    if d.Err? {
      return Err(d.error);
    }
    var (prob, pAnno, hAnno) := d.value;
    sen2anno.Update(prob.p, pAnno, ProbRef(part, prob.pid, P));
    sen2anno.Update(prob.h, hAnno, ProbRef(part, prob.pid, H));
    return Ok(snliPart[prob.pid := prob]);
  }

  /**
   * One part file read on its own: the record loop `ReadRecords`, whose
   * state is that of `PartRead` over the records' verdicts, with what that
   * means for the records. It fails exactly when a kept record's annotations
   * fail; otherwise the problem keys gained exactly the kept pair ids and
   * every kept record's sentences carry its references; either way
   * `sen2anno` only gained kept sentences and references.
   */
  method ReadPart(part: string, records: seq<SnliRecord>, cleanLabels: bool, goldLabels: seq<string>,
                  problems: map<string, Problem>, sen2anno: Sen2Anno)
    returns (r: Result<map<string, Problem>, AnnoError>)
    modifies sen2anno
    ensures sen2anno.entries
            == PartRead(part, Verdicts(records, cleanLabels, goldLabels), |records|, problems, old(sen2anno.entries)).entries
    ensures r == Outcome(PartRead(part, Verdicts(records, cleanLabels, goldLabels), |records|, problems, old(sen2anno.entries)))
    ensures r.Ok? <==> KeptReadable(records, |records|, cleanLabels, goldLabels)
    ensures r.Ok? ==> r.value.Keys == problems.Keys + KeptPids(records, |records|, cleanLabels, goldLabels)
    ensures r.Ok? ==> RefsRecorded(sen2anno.entries, part, records, |records|, cleanLabels, goldLabels)
    ensures Grows(old(sen2anno.entries), sen2anno.entries)
    ensures sen2anno.entries.Keys <= old(sen2anno.entries).Keys + KeptSentences(records, |records|, cleanLabels, goldLabels)
  {
    ghost var m0 := sen2anno.entries;
    r := ReadRecords(part, records, cleanLabels, goldLabels, problems, sen2anno);
    PartReadSummary(part, records, cleanLabels, goldLabels, problems, m0);
  }

  /**
   * The loop over the parsed records of one part (the inner loop of
   * `snli_jsonl2dict`): it leaves the state that `PartRead` computes.
   */
  method ReadRecords(part: string, records: seq<SnliRecord>, cleanLabels: bool, goldLabels: seq<string>,
                     problems: map<string, Problem>, sen2anno: Sen2Anno)
    returns (r: Result<map<string, Problem>, AnnoError>)
    modifies sen2anno
    ensures sen2anno.entries
            == PartRead(part, Verdicts(records, cleanLabels, goldLabels), |records|, problems, old(sen2anno.entries)).entries
    ensures r == Outcome(PartRead(part, Verdicts(records, cleanLabels, goldLabels), |records|, problems, old(sen2anno.entries)))
  {
    ghost var m0 := sen2anno.entries;
    ghost var vs := Verdicts(records, cleanLabels, goldLabels);
    var snliPart := problems;
    for i := 0 to |records|
      invariant PartRead(part, vs, i, problems, m0) == PartPass(snliPart, sen2anno.entries, None)
    {
      VerdictsAt(records, cleanLabels, goldLabels, i);
      var next := ReadRecord(part, records[i], cleanLabels, goldLabels, snliPart, sen2anno);
      if next.Err? {
        PartReadStuck(part, vs, i + 1, |records|, problems, m0);
        return next;
      }
      snliPart := next.value;
    }
    return Ok(snliPart);
  }

  /** The names of the first `n` part files. */
  function PartNames(parts: seq<(string, seq<SnliRecord>)>, n: nat): set<string>
    requires n <= |parts|
  {
    if n == 0 then {} else PartNames(parts, n - 1) + {parts[n - 1].0}
  }

  /** The part names are those of the part files. */
  lemma {:induction false} PartNamesAre(parts: seq<(string, seq<SnliRecord>)>, n: nat)
    requires n <= |parts|
    ensures PartNames(parts, n) == set k | 0 <= k < n :: parts[k].0
  {
    if n > 0 {
      PartNamesAre(parts, n - 1);
      assert (set k | 0 <= k < n :: parts[k].0) == (set k | 0 <= k < n - 1 :: parts[k].0) + {parts[n - 1].0};
    }
  }

  /** The kept pair ids of those of the first `n` part files that are named `name`. */
  function PartPids(parts: seq<(string, seq<SnliRecord>)>, n: nat, name: string, cleanLabels: bool,
                    goldLabels: seq<string>): set<string>
    requires n <= |parts|
  {
    if n == 0 then {}
    else PartPids(parts, n - 1, name, cleanLabels, goldLabels)
         + (if parts[n - 1].0 == name then KeptPids(parts[n - 1].1, |parts[n - 1].1|, cleanLabels, goldLabels) else {})
  }

  /** A name no part file carries has no pair ids. */
  lemma {:induction false} PartPidsAbsent(parts: seq<(string, seq<SnliRecord>)>, n: nat, name: string,
                                          cleanLabels: bool, goldLabels: seq<string>)
    requires n <= |parts| && name !in PartNames(parts, n)
    ensures PartPids(parts, n, name, cleanLabels, goldLabels) == {}
  {
    if n > 0 {
      PartPidsAbsent(parts, n - 1, name, cleanLabels, goldLabels);
    }
  }

  /**
   * The loop of `snli_jsonl2dict` over the first `n` part files, as values:
   * each part's records are read into `snli[part]`, which a repeated part
   * name continues, and into `sen2anno`; the first annotation error stops
   * everything.
   */
  function CorpusRead(parts: seq<(string, seq<SnliRecord>)>, n: nat, cleanLabels: bool, goldLabels: seq<string>)
    : Result<(map<string, map<string, Problem>>, map<string, Entry>), AnnoError>
    requires n <= |parts|
  {
    if n == 0 then Ok((map[], map[]))
    else match CorpusRead(parts, n - 1, cleanLabels, goldLabels)
      case Err(e) => Err(e)
      case Ok((snli, m)) =>
        var part := parts[n - 1].0;
        var s := PartRead(part, Verdicts(parts[n - 1].1, cleanLabels, goldLabels), |parts[n - 1].1|,
                          if part in snli then snli[part] else map[], m);
        if s.failure.Some? then Err(s.failure.value) else Ok((snli[part := s.problems], s.entries))
  }

  /** `snli_jsonl2dict` as a value: no part file at all is an error, and so is a failed annotation. */
  function Jsonl2Dict(parts: seq<(string, seq<SnliRecord>)>, cleanLabels: bool, goldLabels: seq<string>)
    : Result<(map<string, map<string, Problem>>, map<string, Entry>), SnliError>
  {
    if parts == [] then Err(NoPartFiles)
    else match CorpusRead(parts, |parts|, cleanLabels, goldLabels)
      case Err(e) => Err(BadAnnotation(e))
      case Ok(v) => Ok(v)
  }

  /** Once a part has raised, later parts change nothing. */
  lemma {:induction false} CorpusReadStuck(parts: seq<(string, seq<SnliRecord>)>, n: nat, n2: nat,
                                           cleanLabels: bool, goldLabels: seq<string>)
    requires n <= n2 <= |parts|
    requires CorpusRead(parts, n, cleanLabels, goldLabels).Err?
    ensures CorpusRead(parts, n2, cleanLabels, goldLabels) == CorpusRead(parts, n, cleanLabels, goldLabels)
    decreases n2
  {
    if n < n2 {
      CorpusReadStuck(parts, n, n2 - 1, cleanLabels, goldLabels);
    }
  }

  /** Reading the parts succeeds exactly when every kept record of every part is readable. */
  lemma {:induction false} CorpusReadOk(parts: seq<(string, seq<SnliRecord>)>, n: nat,
                                        cleanLabels: bool, goldLabels: seq<string>)
    requires n <= |parts|
    ensures CorpusRead(parts, n, cleanLabels, goldLabels).Ok?
            <==> forall k :: 0 <= k < n ==> KeptReadable(parts[k].1, |parts[k].1|, cleanLabels, goldLabels)
  {
    if n > 0 {
      CorpusReadOk(parts, n - 1, cleanLabels, goldLabels);
      var prev := CorpusRead(parts, n - 1, cleanLabels, goldLabels);
      if prev.Ok? {
        var (snli, m) := prev.value;
        var part := parts[n - 1].0;
        PartReadOk(part, parts[n - 1].1, cleanLabels, goldLabels, if part in snli then snli[part] else map[], m);
      }
    }
  }

  /** On success the keys of `snli` are the part names. */
  lemma {:induction false} CorpusReadKeys(parts: seq<(string, seq<SnliRecord>)>, n: nat,
                                          cleanLabels: bool, goldLabels: seq<string>)
    requires n <= |parts|
    ensures CorpusRead(parts, n, cleanLabels, goldLabels).Ok? ==>
              CorpusRead(parts, n, cleanLabels, goldLabels).value.0.Keys == PartNames(parts, n)
  {
    if n > 0 {
      CorpusReadKeys(parts, n - 1, cleanLabels, goldLabels);
    }
  }

  /** A successful read of `n` part files is a successful read of the first `n - 1` followed by the last part's record loop. */
  lemma CorpusReadNext(parts: seq<(string, seq<SnliRecord>)>, n: nat, cleanLabels: bool, goldLabels: seq<string>)
    requires 0 < n <= |parts|
    requires CorpusRead(parts, n, cleanLabels, goldLabels).Ok?
    ensures CorpusRead(parts, n - 1, cleanLabels, goldLabels).Ok?
    ensures var (snli, m) := CorpusRead(parts, n - 1, cleanLabels, goldLabels).value;
            var part := parts[n - 1].0;
            var s := PartRead(part, Verdicts(parts[n - 1].1, cleanLabels, goldLabels), |parts[n - 1].1|,
                              if part in snli then snli[part] else map[], m);
            s.failure.None? && CorpusRead(parts, n, cleanLabels, goldLabels).value == (snli[part := s.problems], s.entries)
  {
  }

  /**
   * Storing a part's problems under its name, when they extend what was
   * stored there by `kept`: the keys under `name` gain `kept` exactly when
   * `name` is the part's name.
   */
  lemma StoreKeys(snli: map<string, map<string, Problem>>, part: string, name: string, problems: map<string, Problem>,
                  kept: set<string>, before: set<string>)
    requires problems.Keys == (if part in snli then snli[part].Keys else {}) + kept
    requires name in snli ==> snli[name].Keys == before
    requires name == part && part !in snli ==> before == {}
    ensures name in snli[part := problems] ==>
              snli[part := problems][name].Keys == before + (if part == name then kept else {})
  {
  }

  /** On success every part's problems are keyed by exactly the kept pair ids of the files with its name. */
  lemma {:induction false} CorpusReadPids(parts: seq<(string, seq<SnliRecord>)>, n: nat, name: string,
                                          cleanLabels: bool, goldLabels: seq<string>)
    requires n <= |parts|
    ensures CorpusRead(parts, n, cleanLabels, goldLabels).Ok? && name in CorpusRead(parts, n, cleanLabels, goldLabels).value.0
            ==> CorpusRead(parts, n, cleanLabels, goldLabels).value.0[name].Keys
                == PartPids(parts, n, name, cleanLabels, goldLabels)
  {
    if n > 0 && CorpusRead(parts, n, cleanLabels, goldLabels).Ok? {
      CorpusReadNext(parts, n, cleanLabels, goldLabels);
      CorpusReadPids(parts, n - 1, name, cleanLabels, goldLabels);
      var (snli, m) := CorpusRead(parts, n - 1, cleanLabels, goldLabels).value;
      var (part, records) := parts[n - 1];
      var existing := if part in snli then snli[part] else map[];
      PartReadPids(part, records, cleanLabels, goldLabels, existing, m);
      if name == part && part !in snli {
        CorpusReadKeys(parts, n - 1, cleanLabels, goldLabels);
        PartPidsAbsent(parts, n - 1, name, cleanLabels, goldLabels);
      }
      StoreKeys(snli, part, name, PartRead(part, Verdicts(records, cleanLabels, goldLabels), |records|, existing, m).problems,
                KeptPids(records, |records|, cleanLabels, goldLabels), PartPids(parts, n - 1, name, cleanLabels, goldLabels));
    }
  }

  /** On success every kept record of every part has both sentences referenced. */
  lemma {:induction false} CorpusReadRefs(parts: seq<(string, seq<SnliRecord>)>, n: nat,
                                          cleanLabels: bool, goldLabels: seq<string>)
    requires n <= |parts|
    ensures CorpusRead(parts, n, cleanLabels, goldLabels).Ok? ==>
              forall k :: 0 <= k < n ==>
                RefsRecorded(CorpusRead(parts, n, cleanLabels, goldLabels).value.1,
                             parts[k].0, parts[k].1, |parts[k].1|, cleanLabels, goldLabels)
  {
    if n > 0 && CorpusRead(parts, n, cleanLabels, goldLabels).Ok? {
      CorpusReadNext(parts, n, cleanLabels, goldLabels);
      CorpusReadRefs(parts, n - 1, cleanLabels, goldLabels);
      var (snli, m) := CorpusRead(parts, n - 1, cleanLabels, goldLabels).value;
      var part := parts[n - 1].0;
      var existing := if part in snli then snli[part] else map[];
      var vs := Verdicts(parts[n - 1].1, cleanLabels, goldLabels);
      var s := PartRead(part, vs, |parts[n - 1].1|, existing, m);
      PartReadRecorded(part, parts[n - 1].1, cleanLabels, goldLabels, existing, m);
      PartReadGrows(part, vs, |parts[n - 1].1|, existing, m);
      forall k | 0 <= k < n - 1
        ensures RefsRecorded(s.entries, parts[k].0, parts[k].1, |parts[k].1|, cleanLabels, goldLabels)
      {
        RefsRecordedGrows(m, s.entries, parts[k].0, parts[k].1, |parts[k].1|, cleanLabels, goldLabels);
      }
    }
  }

  /**
   * What `snli_jsonl2dict` promises: no part file at all is an error; an
   * annotation check that fails on a kept record of any part fails the call;
   * otherwise every part gets its problem dictionary, keyed by exactly the
   * kept pair ids of the files with its name, and every kept record of every
   * part has its premise and hypothesis referenced in `sen2anno`.
   */
  lemma Jsonl2DictFacts(parts: seq<(string, seq<SnliRecord>)>, cleanLabels: bool, goldLabels: seq<string>)
    ensures Jsonl2Dict(parts, cleanLabels, goldLabels) == Err(NoPartFiles) <==> parts == []
    ensures Jsonl2Dict(parts, cleanLabels, goldLabels).Ok?
            <==> parts != [] && forall k :: 0 <= k < |parts| ==> KeptReadable(parts[k].1, |parts[k].1|, cleanLabels, goldLabels)
    ensures Jsonl2Dict(parts, cleanLabels, goldLabels).Ok? ==>
              Jsonl2Dict(parts, cleanLabels, goldLabels).value.0.Keys == set k | 0 <= k < |parts| :: parts[k].0
    ensures Jsonl2Dict(parts, cleanLabels, goldLabels).Ok? ==>
              forall name :: name in Jsonl2Dict(parts, cleanLabels, goldLabels).value.0 ==>
                Jsonl2Dict(parts, cleanLabels, goldLabels).value.0[name].Keys
                == PartPids(parts, |parts|, name, cleanLabels, goldLabels)
    ensures Jsonl2Dict(parts, cleanLabels, goldLabels).Ok? ==>
              forall k :: 0 <= k < |parts| ==>
                RefsRecorded(Jsonl2Dict(parts, cleanLabels, goldLabels).value.1,
                             parts[k].0, parts[k].1, |parts[k].1|, cleanLabels, goldLabels)
  {
    if parts != [] {
      CorpusReadOk(parts, |parts|, cleanLabels, goldLabels);
      CorpusReadKeys(parts, |parts|, cleanLabels, goldLabels);
      PartNamesAre(parts, |parts|);
      CorpusReadRefs(parts, |parts|, cleanLabels, goldLabels);
      forall name
        ensures CorpusRead(parts, |parts|, cleanLabels, goldLabels).Ok?
                && name in CorpusRead(parts, |parts|, cleanLabels, goldLabels).value.0
                ==> CorpusRead(parts, |parts|, cleanLabels, goldLabels).value.0[name].Keys
                    == PartPids(parts, |parts|, name, cleanLabels, goldLabels)
      {
        CorpusReadPids(parts, |parts|, name, cleanLabels, goldLabels);
      }
    }
  }

  /**
   * `snli_jsonl2dict` over the parsed records of each part file: the result
   * is `Jsonl2Dict`, whose properties `Jsonl2DictFacts` states.
   */
  method SnliJsonl2Dict(parts: seq<(string, seq<SnliRecord>)>, cleanLabels: bool, goldLabels: seq<string>)
    returns (r: Result<(map<string, map<string, Problem>>, map<string, Entry>), SnliError>)
    ensures r == Jsonl2Dict(parts, cleanLabels, goldLabels)
  {
    if parts == [] {
      return Err(NoPartFiles);
    }
    var snli: map<string, map<string, Problem>> := map[];
    var s2a := new Sen2Anno();
    for i := 0 to |parts|
      invariant CorpusRead(parts, i, cleanLabels, goldLabels) == Ok((snli, s2a.entries))
    {
      var (part, records) := parts[i];
      var existing := if part in snli then snli[part] else map[];
      var res := ReadRecords(part, records, cleanLabels, goldLabels, existing, s2a);
      if res.Err? {
        CorpusReadStuck(parts, i + 1, |parts|, cleanLabels, goldLabels);
        return Err(BadAnnotation(res.error));
      }
      snli := snli[part := res.value];
    }
    return Ok((snli, s2a.entries));
  }
}
