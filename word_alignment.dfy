/**
 * The word/token bookkeeping of `transformer_word2convec`
 * (NLP/deep_learning.py): a subword tokenizer splits each word of a
 * sentence into tokens and reports, per token of the padded input, the
 * word it came from (`None` for special and padding tokens). The code maps
 * token positions to word positions, inverts that map, and collects for
 * every word its tokens and the hidden states to be averaged into the
 * word's vector. The tokenizer, the model and the averaging are outside
 * the model; what is modelled is which tokens and which positions each
 * word gets.
 */
module WordAlignment {
  import opened Common

  /** The word index of each token of the padded input (`word_ids`). */
  type WordIds = seq<Option<nat>>

  // ---------------------------------------------------------------------
  // Token positions to word positions

  /** `[i for i in word_ids if i is not None]`: the word index of each non-special token. */
  function DropNone(ids: WordIds): (r: seq<nat>)
    ensures |r| <= |ids|
  {
    if ids == [] then []
    else match ids[|ids| - 1]
      case None => DropNone(ids[..|ids| - 1])
      case Some(w) => DropNone(ids[..|ids| - 1]) + [w]
  }

  /** The positions in the padded input of the non-special tokens, in order. */
  function SomePositions(ids: WordIds): (r: seq<nat>)
    ensures |r| == |DropNone(ids)|
    ensures forall t :: 0 <= t < |r| ==> r[t] < |ids| && ids[r[t]] == Some(DropNone(ids)[t])
  {
    if ids == [] then []
    else
      var pre := ids[..|ids| - 1];
      assert forall p :: 0 <= p < |pre| ==> ids[p] == pre[p];
      match ids[|ids| - 1]
      case None =>
        assert DropNone(ids) == DropNone(pre);
        SomePositions(pre)
      case Some(w) =>
        assert DropNone(ids) == DropNone(pre) + [w];
        SomePositions(pre) + [|pre|]
  }

  /** The non-special positions come in increasing order. */
  lemma {:induction false} SomePositionsIncreasing(ids: WordIds)
    ensures forall t, u :: 0 <= t < u < |SomePositions(ids)| ==> SomePositions(ids)[t] < SomePositions(ids)[u]
  {
    if ids != [] {
      var pre := ids[..|ids| - 1];
      SomePositionsIncreasing(pre);
      var sp := SomePositions(pre);
      if ids[|ids| - 1].Some? {
        var r := sp + [|pre|];
        assert SomePositions(ids) == r;
        forall t, u | 0 <= t < u < |r|
          ensures r[t] < r[u]
        {
          if u == |sp| {
            assert r[t] == sp[t] < |pre|;
          }
        }
      } else {
        assert SomePositions(ids) == sp;
      }
    }
  }

  /** No non-special position is missed. */
  lemma {:induction false} SomePositionsCover(ids: WordIds, p: nat)
    requires p < |ids| && ids[p].Some?
    ensures p in SomePositions(ids)
  {
    var pre := ids[..|ids| - 1];
    if p < |pre| {
      assert pre[p] == ids[p];
      SomePositionsCover(pre, p);
      var sp := SomePositions(pre);
      if ids[|ids| - 1].Some? {
        assert SomePositions(ids) == sp + [|pre|];
      } else {
        assert SomePositions(ids) == sp;
      }
    } else {
      assert SomePositions(ids) == SomePositions(pre) + [|pre|];
    }
  }

  // ---------------------------------------------------------------------
  // Word positions to token positions

  /** The positions of `s` that hold `x`, in increasing order. */
  function Positions<T(==)>(s: seq<T>, x: T): (r: seq<nat>)
    ensures forall m :: 0 <= m < |r| ==> r[m] < |s| && s[r[m]] == x
    ensures forall m, n :: 0 <= m < n < |r| ==> r[m] < r[n]
    ensures forall k :: 0 <= k < |s| && s[k] == x ==> k in r
  {
    if s == [] then []
    else Positions(s[..|s| - 1], x) + if s[|s| - 1] == x then [|s| - 1] else []
  }

  /** One more element adds its own position to its value's list only. */
  lemma PositionsStep<T>(s: seq<T>, y: T, x: T)
    ensures Positions(s + [y], x) == Positions(s, x) + if y == x then [|s|] else []
  {
    assert (s + [y])[..|s|] == s;
  }

  /** A value that does not occur has no positions. */
  lemma PositionsAbsent<T>(s: seq<T>, x: T)
    requires x !in s
    ensures Positions(s, x) == []
  {
  }

  /** `dict(mapping)` after the loop: each word index that occurs, with its token positions. */
  function PositionMap(tokToWord: seq<nat>): map<nat, seq<nat>>
  {
    map w | w in tokToWord :: Positions(tokToWord, w)
  }

  /** `mapping[w].append(p)` on a `defaultdict(list)`. */
  function Appended(mapping: map<nat, seq<nat>>, w: nat, p: nat): map<nat, seq<nat>>
  {
    mapping[w := (if w in mapping then mapping[w] else []) + [p]]
  }

  /** One more token extends the list of its own word, creating it when it is new. */
  lemma PositionMapStep(s: seq<nat>, w: nat)
    ensures PositionMap(s + [w]) == Appended(PositionMap(s), w, |s|)
  {
    var m, m' := PositionMap(s + [w]), Appended(PositionMap(s), w, |s|);
    PositionMapAgree(s, w);
    assert m.Keys == m'.Keys;
  }

  /** The two maps of `PositionMapStep` agree on every word. */
  lemma PositionMapAgree(s: seq<nat>, w: nat)
    ensures forall x :: x in PositionMap(s + [w]) <==> x in Appended(PositionMap(s), w, |s|)
    ensures forall x :: x in PositionMap(s + [w]) ==> PositionMap(s + [w])[x] == Appended(PositionMap(s), w, |s|)[x]
  {
    forall x | x in PositionMap(s + [w]) || x in Appended(PositionMap(s), w, |s|)
      ensures x in PositionMap(s + [w]) <==> x in Appended(PositionMap(s), w, |s|)
      ensures x in PositionMap(s + [w]) ==> PositionMap(s + [w])[x] == Appended(PositionMap(s), w, |s|)[x]
    {
      PositionMapAt(s, w, x);
    }
  }

  /** `PositionMapAgree` for one word. */
  lemma PositionMapAt(s: seq<nat>, w: nat, x: nat)
    ensures x in PositionMap(s + [w]) <==> x in Appended(PositionMap(s), w, |s|)
    ensures x in PositionMap(s + [w]) ==> PositionMap(s + [w])[x] == Appended(PositionMap(s), w, |s|)[x]
  {
    PositionsStep(s, w, x);
    if x == w && w !in s {
      PositionsAbsent(s, w);
    }
  }

  /**
   * The position map inverts the token-to-word list: every token lies in
   * the list of its own word and in no other, every list is non-empty and
   * increasing, and the keys are exactly the words that have a token.
   */
  lemma {:induction false} PositionMapInverts(s: seq<nat>)
    ensures forall k :: 0 <= k < |s| ==> s[k] in PositionMap(s) && k in PositionMap(s)[s[k]]
    ensures forall w :: w in PositionMap(s) ==> |PositionMap(s)[w]| > 0
    ensures forall w, m :: w in PositionMap(s) && 0 <= m < |PositionMap(s)[w]| ==>
              PositionMap(s)[w][m] < |s| && s[PositionMap(s)[w][m]] == w
    ensures forall w, m, n :: w in PositionMap(s) && 0 <= m < n < |PositionMap(s)[w]| ==>
              PositionMap(s)[w][m] < PositionMap(s)[w][n]
  {
    forall w | w in PositionMap(s)
      ensures |PositionMap(s)[w]| > 0
    {
      var k :| 0 <= k < |s| && s[k] == w;
      assert k in Positions(s, w);
    }
  }

  /**
   * The inner loop of lines 35-38: a `defaultdict(list)` filled by
   * appending each token position to the list of its word.
   */
  method WordToTokens(tokToWord: seq<nat>) returns (mapping: map<nat, seq<nat>>)
    ensures mapping == PositionMap(tokToWord)
  {
    mapping := map[];
    for t := 0 to |tokToWord|
      invariant mapping == PositionMap(tokToWord[..t])
    {
      var w := tokToWord[t];
      assert tokToWord[..t + 1] == tokToWord[..t] + [w];
      PositionMapStep(tokToWord[..t], w);
      assert |tokToWord[..t]| == t;
      if w in mapping {
        mapping := mapping[w := mapping[w] + [t]];
      } else {
        assert [] + [t] == [t];
        mapping := mapping[w := [t]];
      }
    }
    assert tokToWord[..|tokToWord|] == tokToWord;
  }

  /** The outer loop of lines 33-38: one position map per sentence of the batch. */
  method WordPosToTokPos(batch: seq<seq<nat>>) returns (maps: seq<map<nat, seq<nat>>>)
    ensures |maps| == |batch|
    ensures forall i :: 0 <= i < |batch| ==> maps[i] == PositionMap(batch[i])
  {
    maps := [];
    for i := 0 to |batch|
      invariant |maps| == i
      invariant forall k :: 0 <= k < i ==> maps[k] == PositionMap(batch[k])
    {
      var m := WordToTokens(batch[i]);
      maps := maps + [m];
    }
  }

  // ---------------------------------------------------------------------
  // The hidden states of a word

  /**
   * The hidden-state positions line 49 reads for word `j`, as written: the
   * positions in the list without special tokens, used to index the hidden
   * states of the full padded input.
   */
  function HiddenPositionsAsWritten(ids: WordIds, j: nat): (r: seq<nat>)
    ensures forall m :: 0 <= m < |r| ==> r[m] < |ids|
  {
    Positions(DropNone(ids), j)
  }

  /** The hidden-state positions of word `j` in the full padded input: the tokens it was split into. */
  function HiddenPositions(ids: WordIds, j: nat): (r: seq<nat>)
    ensures forall m :: 0 <= m < |r| ==> r[m] < |ids| && ids[r[m]] == Some(j)
    ensures forall p :: 0 <= p < |ids| && ids[p] == Some(j) ==> p in r
  {
    Positions(ids, Some(j))
  }

  /** The positions of `idx` that `ps` names, in order. */
  function Through(ps: seq<nat>, idx: seq<nat>): (r: seq<nat>)
    requires forall m :: 0 <= m < |ps| ==> ps[m] < |idx|
    ensures |r| == |ps|
  {
    seq(|ps|, m requires 0 <= m < |ps| => idx[ps[m]])
  }

  /** Indexing through a longer index list changes nothing. */
  lemma ThroughExtend(ps: seq<nat>, idx: seq<nat>, v: nat)
    requires forall m :: 0 <= m < |ps| ==> ps[m] < |idx|
    ensures Through(ps, idx + [v]) == Through(ps, idx)
  {
  }

  /** Indexing through one more position adds that position's entry. */
  lemma ThroughAppend(ps: seq<nat>, q: nat, idx: seq<nat>)
    requires forall m :: 0 <= m < |ps| ==> ps[m] < |idx|
    requires q < |idx|
    ensures Through(ps + [q], idx) == Through(ps, idx) + [idx[q]]
  {
  }

  /**
   * The corrected positions are the as-written ones carried over from the
   * list without special tokens into the full input.
   */
  lemma {:induction false} HiddenPositionsThrough(ids: WordIds, j: nat)
    ensures HiddenPositions(ids, j) == Through(HiddenPositionsAsWritten(ids, j), SomePositions(ids))
  {
    if ids != [] {
      var pre := ids[..|ids| - 1];
      var last := ids[|ids| - 1];
      assert ids == pre + [last];
      HiddenPositionsThrough(pre, j);
      PositionsStep(pre, last, Some(j));
      var ps := HiddenPositionsAsWritten(pre, j);
      match last
      case None =>
        assert DropNone(ids) == DropNone(pre);
        assert SomePositions(ids) == SomePositions(pre);
      case Some(w) =>
        var d := DropNone(pre);
        var sp := SomePositions(pre);
        assert DropNone(ids) == d + [w];
        assert SomePositions(ids) == sp + [|pre|];
        PositionsStep(d, w, j);
        ThroughExtend(ps, sp, |pre|);
        if w == j {
          ThroughAppend(ps, |d|, sp + [|pre|]);
        }
    }
  }

  /** The word ids of a two-word input with a leading and a trailing special token. */
  const Framed: WordIds := [None, Some(0), Some(1), None]

  /** Dropping the special tokens of `Framed` leaves the two words. */
  lemma FramedDropNone()
    ensures DropNone(Framed) == [0, 1]
  {
    var i1: WordIds := [None];
    var i2: WordIds := [None, Some(0)];
    var i3: WordIds := [None, Some(0), Some(1)];
    assert i1[..0] == [] && i2[..1] == i1 && i3[..2] == i2 && Framed[..3] == i3;
    assert DropNone(i1) == [];
    assert DropNone(i2) == [0];
    assert DropNone(i3) == [0, 1];
  }

  /** The tokens of word 0 in `Framed` sit at position 1 of the padded input. */
  lemma FramedWordZero()
    ensures HiddenPositions(Framed, 0) == [1]
  {
    var i1: WordIds := [None];
    var i2: WordIds := [None, Some(0)];
    var i3: WordIds := [None, Some(0), Some(1)];
    assert i1[..0] == [] && i2[..1] == i1 && i3[..2] == i2 && Framed[..3] == i3;
    assert Positions(i1, Some(0)) == [];
    assert Positions(i2, Some(0)) == [1];
    assert Positions(i3, Some(0)) == [1];
  }

  /**
   * With a leading special token, as-written line 49 gives the first word
   * the hidden state of that special token instead of its own.
   */
  lemma HiddenPositionsAsWrittenMisaligned()
    ensures HiddenPositionsAsWritten(Framed, 0) == [0] && Framed[0] == None
    ensures HiddenPositions(Framed, 0) == [1]
  {
    FramedDropNone();
    FramedWordZero();
    var d: seq<nat> := [0, 1];
    assert d[..1] == [0] && d[..1][..0] == [];
    assert Positions(d[..1], 0) == [0];
  }

  // ---------------------------------------------------------------------
  // The entries of a sentence

  /**
   * What the code records for a word: its tokens, the hidden-state positions
   * line 49 reads as written (`asRead`), and the positions of the word's own
   * tokens in the padded input, where it evidently meant to read (`positions`).
   */
  datatype WordEntry = WordEntry(word: string, tokens: seq<string>, asRead: seq<nat>, positions: seq<nat>)

  /** The errors the collection of a word's tokens can raise. */
  datatype AlignError =
    | KeyError(word: nat)               // a word that received no token
    | IndexError(word: nat)             // a token position beyond the token list

  /**
   * The entry of word `j`: its tokens, looked up by position in the token
   * list without special tokens, the positions line 49 reads as written, and
   * the hidden-state positions of its tokens in the padded input.
   */
  function EntryFor(word: string, j: nat, tokens: seq<string>, ids: WordIds, mapping: map<nat, seq<nat>>)
    : (r: Result<WordEntry, AlignError>)
    ensures r.Ok? <==> j in mapping && forall m :: 0 <= m < |mapping[j]| ==> mapping[j][m] < |tokens|
    ensures r.Ok? ==> r.value.word == word && |r.value.tokens| == |mapping[j]|
                      && forall m :: 0 <= m < |mapping[j]| ==> r.value.tokens[m] == tokens[mapping[j][m]]
    ensures r.Ok? ==> r.value.asRead == HiddenPositionsAsWritten(ids, j)
    ensures r.Ok? ==> r.value.positions == HiddenPositions(ids, j)
    ensures r.Err? ==> r.error == if j in mapping then IndexError(j) else KeyError(j)
  {
    if j !in mapping then Err(KeyError(j))
    else if exists m :: 0 <= m < |mapping[j]| && mapping[j][m] >= |tokens| then Err(IndexError(j))
    else Ok(WordEntry(word, seq(|mapping[j]|, m requires 0 <= m < |mapping[j]| => tokens[mapping[j][m]]),
                      HiddenPositionsAsWritten(ids, j), HiddenPositions(ids, j)))
  }

  /** A word index occurs among the non-special tokens exactly when some token of the input came from it. */
  lemma DropNoneHas(ids: WordIds, j: nat)
    ensures j in DropNone(ids) <==> Some(j) in ids
  {
    var d := DropNone(ids);
    var sp := SomePositions(ids);
    if Some(j) in ids {
      var p :| 0 <= p < |ids| && ids[p] == Some(j);
      SomePositionsCover(ids, p);
      var t :| 0 <= t < |sp| && sp[t] == p;
      assert d[t] == j;
    }
    if j in d {
      var t :| 0 <= t < |d| && d[t] == j;
      assert ids[sp[t]] == Some(j);
    }
  }

  /**
   * When the position map is built from the word ids and the token list
   * holds one token per non-special position, a word gets an entry exactly
   * when some token of the input came from it.
   */
  lemma EntryForAligned(word: string, j: nat, tokens: seq<string>, ids: WordIds)
    requires |tokens| == |DropNone(ids)|
    ensures EntryFor(word, j, tokens, ids, PositionMap(DropNone(ids))).Ok? <==> Some(j) in ids
  {
    DropNoneHas(ids, j);
  }

  /**
   * In the entry of a word, the `m`-th token and the `m`-th hidden-state
   * position belong to the same token of the input; as written, the code
   * reads the hidden states at that token's position in the list without
   * special tokens.
   */
  lemma EntryForPairs(word: string, j: nat, tokens: seq<string>, ids: WordIds)
    requires EntryFor(word, j, tokens, ids, PositionMap(DropNone(ids))).Ok?
    ensures var e := EntryFor(word, j, tokens, ids, PositionMap(DropNone(ids))).value;
            var ps := Positions(DropNone(ids), j);
            && e.asRead == ps
            && |e.positions| == |e.tokens| == |ps|
            && forall m :: 0 <= m < |ps| ==> e.tokens[m] == tokens[ps[m]] && e.positions[m] == SomePositions(ids)[ps[m]]
  {
    var e := EntryFor(word, j, tokens, ids, PositionMap(DropNone(ids))).value;
    var ps := Positions(DropNone(ids), j);
    assert PositionMap(DropNone(ids))[j] == ps;
    HiddenPositionsThrough(ids, j);
    assert e.positions == Through(ps, SomePositions(ids));
  }

  /** Every word of the sentence has an entry. */
  predicate SentenceOk(words: seq<string>, tokens: seq<string>, ids: WordIds, mapping: map<nat, seq<nat>>)
  {
    forall j :: 0 <= j < |words| ==> EntryFor(words[j], j, tokens, ids, mapping).Ok?
  }

  /** The entries of all words of the sentence, in order. */
  function SentenceEntries(words: seq<string>, tokens: seq<string>, ids: WordIds, mapping: map<nat, seq<nat>>)
    : (r: seq<WordEntry>)
    requires SentenceOk(words, tokens, ids, mapping)
    ensures |r| == |words|
  {
    seq(|words|, j requires 0 <= j < |words| && SentenceOk(words, tokens, ids, mapping) =>
                   EntryFor(words[j], j, tokens, ids, mapping).value)
  }

  /**
   * The loop of lines 46-52 over the words of one sentence: it fails at
   * the first word without an entry, and otherwise lists every word's
   * entry in order.
   */
  method VectorizeSentence(words: seq<string>, tokens: seq<string>, ids: WordIds, mapping: map<nat, seq<nat>>)
    returns (r: Result<seq<WordEntry>, AlignError>)
    ensures r.Ok? <==> SentenceOk(words, tokens, ids, mapping)
    ensures r.Ok? ==> r.value == SentenceEntries(words, tokens, ids, mapping)
    ensures r.Err? ==> exists j :: 0 <= j < |words| && EntryFor(words[j], j, tokens, ids, mapping) == Err(r.error)
                         && forall i :: 0 <= i < j ==> EntryFor(words[i], i, tokens, ids, mapping).Ok?
  {
    var entries: seq<WordEntry> := [];
    for j := 0 to |words|
      invariant |entries| == j
      invariant forall i :: 0 <= i < j ==> EntryFor(words[i], i, tokens, ids, mapping).Ok?
                                           && entries[i] == EntryFor(words[i], i, tokens, ids, mapping).value
    {
      var e := EntryFor(words[j], j, tokens, ids, mapping);
      if e.Err? {
        return Err(e.error);
      }
      entries := entries + [e.value];
    }
    return Ok(entries);
  }

  /**
   * The bookkeeping of `transformer_word2convec` over a batch, given what
   * the tokenizer returns for each sentence: its tokens without special
   * tokens and the word ids of its padded input.
   */
  method TransformerWord2Convec(wordListBatch: seq<seq<string>>, tokenListBatch: seq<seq<string>>,
                                wordIdsBatch: seq<WordIds>)
    returns (r: Result<seq<seq<WordEntry>>, AlignError>)
    requires |tokenListBatch| == |wordListBatch| && |wordIdsBatch| == |wordListBatch|
    ensures r.Ok? <==> forall i :: 0 <= i < |wordListBatch| ==>
                         SentenceOk(wordListBatch[i], tokenListBatch[i], wordIdsBatch[i], PositionMap(DropNone(wordIdsBatch[i])))
    ensures r.Ok? ==> |r.value| == |wordListBatch|
                      && forall i :: 0 <= i < |wordListBatch| ==>
                           r.value[i] == SentenceEntries(wordListBatch[i], tokenListBatch[i], wordIdsBatch[i],
                                                         PositionMap(DropNone(wordIdsBatch[i])))
  {
    var batchSize := |wordListBatch|;
    var tokToWordBatch := seq(batchSize, i requires 0 <= i < batchSize => DropNone(wordIdsBatch[i]));
    var maps := WordPosToTokPos(tokToWordBatch);
    var vectorized: seq<seq<WordEntry>> := [];
    for i := 0 to batchSize
      invariant |vectorized| == i
      invariant forall k :: 0 <= k < i ==>
                  SentenceOk(wordListBatch[k], tokenListBatch[k], wordIdsBatch[k], PositionMap(DropNone(wordIdsBatch[k])))
                  && vectorized[k] == SentenceEntries(wordListBatch[k], tokenListBatch[k], wordIdsBatch[k],
                                                      PositionMap(DropNone(wordIdsBatch[k])))
    {
      var s := VectorizeSentence(wordListBatch[i], tokenListBatch[i], wordIdsBatch[i], maps[i]);
      if s.Err? {
        return Err(s.error);
      }
      vectorized := vectorized + [s.value];
    }
    return Ok(vectorized);
  }
}
