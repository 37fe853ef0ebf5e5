/**
 * The GloVe vocabulary loader (NLP/GloVe.py): a file of lines
 * `<word> <c1> ... <cD>` becomes a word-to-index map `stoi`, an
 * index-to-word map `itos` and a matrix with one row per line.
 *
 * Each vector component is kept as the text field it is parsed from; what
 * `float` makes of it is not modelled. The file itself is the sequence of
 * its lines, each possibly ending in its line terminator.
 */
module GloVe {
  import opened Common
  import opened PyText

  /** The components of one vector, each the text field `float` would read. */
  type Row = seq<string>

  /** A parsed line: the word and the components after it. */
  datatype Line = Line(word: string, row: Row)

  /**
   * Why stacking the rows fails: `torch.stack` of no rows at all, or a row
   * (`at`) whose length differs from that of the first row.
   */
  datatype LoadError = EmptyStack | SizeMismatch(expected: nat, found: nat, at: nat)

  /**
   * One line as the loop body reads it: strip surrounding whitespace, split
   * on single spaces, take the first field as the word and the rest as the
   * row.
   */
  function ParseLine(line: string): Line
  {
    var values := Split(Strip(line), {' '});
    Line(values[0], values[1..])
  }

  /**
   * Joining the word and the components of a parsed line with single spaces
   * gives the stripped line back, and no field contains a space.
   */
  lemma ParseLineFields(line: string)
    ensures Join([ParseLine(line).word] + ParseLine(line).row, ' ') == Strip(line)
    ensures ' ' !in ParseLine(line).word
    ensures forall k :: 0 <= k < |ParseLine(line).row| ==> ' ' !in ParseLine(line).row[k]
  {
    var values := Split(Strip(line), {' '});
    JoinSplit(Strip(line), ' ');
    assert values == [values[0]] + values[1..];
  }

  /** The fields that `ParseLine` produces are the only ones that join back to the stripped line. */
  lemma ParseLineUnique(line: string, word: string, row: Row)
    requires ' ' !in word && forall k :: 0 <= k < |row| ==> ' ' !in row[k]
    requires Join([word] + row, ' ') == Strip(line)
    ensures ParseLine(line) == Line(word, row)
  {
    var fields := [word] + row;
    assert forall k :: 0 <= k < |fields| ==> ' ' !in fields[k] by {
      forall k | 0 <= k < |fields| ensures ' ' !in fields[k] {
        if k > 0 { assert fields[k] == row[k - 1]; }
      }
    }
    SplitJoin(fields, ' ');
  }

  /** The word of every line, in file order (the values `itos` takes). */
  function Words(lines: seq<string>): (ws: seq<string>)
    ensures |ws| == |lines|
  {
    seq(|lines|, i requires 0 <= i < |lines| => ParseLine(lines[i]).word)
  }

  /** The row of every line, in file order (the list `embeddings`). */
  function Rows(lines: seq<string>): (rs: seq<Row>)
    ensures |rs| == |lines|
  {
    seq(|lines|, i requires 0 <= i < |lines| => ParseLine(lines[i]).row)
  }

  /** `itos` after the loop: each index to the word at that index. */
  function Itos(words: seq<string>): map<nat, string>
  {
    map i: nat | i < |words| :: words[i]
  }

  /** The words of one more line extend the words of the lines before it. */
  lemma WordsStep(input: seq<string>, i: nat)
    requires i < |input|
    ensures Words(input[..i + 1]) == Words(input[..i]) + [ParseLine(input[i]).word]
  {
  }

  /** The rows of one more line extend the rows of the lines before it. */
  lemma RowsStep(input: seq<string>, i: nat)
    requires i < |input|
    ensures Rows(input[..i + 1]) == Rows(input[..i]) + [ParseLine(input[i]).row]
  {
  }

  /** One more word sets `stoi` at that word. */
  lemma IndexStep(ws: seq<string>, w: string)
    ensures Index(ws + [w]) == Index(ws)[w := |ws|]
  {
    assert (ws + [w])[..|ws|] == ws;
  }

  /** One more word sets `itos` at its index. */
  lemma ItosStep(ws: seq<string>, w: string)
    ensures Itos(ws + [w]) == Itos(ws)[|ws| := w]
  {
    var a, b := Itos(ws + [w]), Itos(ws)[|ws| := w];
    assert a.Keys == b.Keys;
    forall i | i in a ensures a[i] == b[i] {
      if i < |ws| { assert (ws + [w])[i] == ws[i]; }
    }
  }

  /**
   * `stoi` after the loop: each word in turn is mapped to its index, so a
   * later line overwrites an earlier one with the same word.
   */
  function Index(words: seq<string>): map<string, nat>
  {
    if words == [] then map[] else Index(words[..|words| - 1])[words[|words| - 1] := |words| - 1]
  }

  /** No word occurs twice. */
  predicate Distinct(words: seq<string>)
  {
    forall i, j :: 0 <= i < j < |words| ==> words[i] != words[j]
  }

  /**
   * `stoi` holds exactly the words that occur, and maps each one to the
   * LAST index that carries it.
   */
  lemma {:induction false} IndexIsLastOccurrence(words: seq<string>)
    ensures Index(words).Keys == set w | w in words
    ensures forall w :: w in Index(words) ==>
              Index(words)[w] < |words| && words[Index(words)[w]] == w
              && forall j :: Index(words)[w] < j < |words| ==> words[j] != w
  {
    if words != [] {
      var init := words[..|words| - 1];
      IndexIsLastOccurrence(init);
      assert words == init + [words[|words| - 1]];
    }
  }

  /** A word is a key of `stoi` exactly when some line carries it. */
  lemma {:induction false} IndexHas(words: seq<string>, w: string)
    ensures w in Index(words) <==> w in words
  {
    if words != [] {
      var init := words[..|words| - 1];
      IndexHas(init, w);
      assert words == init + [words[|words| - 1]];
    }
  }

  /** Appending a word keeps the words distinct exactly when it is new. */
  lemma DistinctSnoc(init: seq<string>, last: string)
    ensures Distinct(init + [last]) <==> Distinct(init) && last !in init
  {
    var words := init + [last];
    if Distinct(init) && last !in init {
      forall i, j | 0 <= i < j < |words| ensures words[i] != words[j] {
        assert words[i] == init[i];
        if j < |init| { assert words[j] == init[j]; }
      }
    } else if !Distinct(init) {
      var i, j :| 0 <= i < j < |init| && init[i] == init[j];
      assert words[i] == words[j];
    } else {
      var k :| 0 <= k < |init| && init[k] == last;
      assert words[k] == words[|init|];
    }
  }

  /** `len(stoi) <= len(words)`, with equality exactly when every word is distinct. */
  lemma {:induction false} IndexSize(words: seq<string>)
    ensures |Index(words)| <= |words|
    ensures |Index(words)| == |words| <==> Distinct(words)
  {
    if words != [] {
      var n := |words| - 1;
      var init, last := words[..n], words[n];
      IndexSize(init);
      IndexHas(init, last);
      assert words == init + [last];
      DistinctSnoc(init, last);
      var m0 := Index(init);
      assert Index(words) == m0[last := n];
      if last in m0 {
        assert |m0[last := n]| == |m0|;
      } else {
        assert |m0[last := n]| == |m0| + 1;
      }
    }
  }

  /** `itos` has exactly the keys `0 .. N-1` for `N` lines. */
  lemma {:induction false} ItosSize(words: seq<string>)
    ensures forall i: nat :: i in Itos(words) <==> i < |words|
    ensures |Itos(words)| == |words|
  {
    if words != [] {
      var init := words[..|words| - 1];
      ItosSize(init);
      assert Itos(words).Keys == Itos(init).Keys + {|words| - 1};
    }
  }

  /**
   * The two maps agree: every index in `stoi` is a line index and `itos`
   * maps it back to the word; every word in `itos` is a key of `stoi`.
   */
  lemma StoiItosConsistent(lines: seq<string>)
    ensures forall w :: w in Index(Words(lines)) ==>
              Index(Words(lines))[w] < |lines| && Itos(Words(lines))[Index(Words(lines))[w]] == w
    ensures forall i :: i in Itos(Words(lines)) ==> Itos(Words(lines))[i] in Index(Words(lines))
  {
    IndexIsLastOccurrence(Words(lines));
    forall i | i in Itos(Words(lines)) ensures Itos(Words(lines))[i] in Index(Words(lines)) {
      assert Words(lines)[i] == Itos(Words(lines))[i];
    }
  }

  /** Line `i` whose word occurs again later is an orphaned row: no word of `stoi` points to it. */
  lemma OrphanedRow(lines: seq<string>, i: nat, j: nat)
    requires i < j < |lines|
    requires ParseLine(lines[i]).word == ParseLine(lines[j]).word
    ensures forall w :: w in Index(Words(lines)) ==> Index(Words(lines))[w] != i
  {
    IndexIsLastOccurrence(Words(lines));
    assert Words(lines)[j] == ParseLine(lines[j]).word;
  }

  /** `len(stoi) <= len(itos)`, with equality exactly when no word is repeated. */
  lemma StoiItosSizes(lines: seq<string>)
    ensures |Index(Words(lines))| <= |Itos(Words(lines))|
    ensures |Index(Words(lines))| == |Itos(Words(lines))| <==> Distinct(Words(lines))
  {
    IndexSize(Words(lines));
    ItosSize(Words(lines));
  }

  /**
   * A word is a key of `stoi` exactly when some line carries it, and then
   * `stoi` leads to the last such line, whose row is the row at that index.
   */
  lemma LookupLine(lines: seq<string>, word: string)
    ensures word in Index(Words(lines)) <==> word in Words(lines)
    ensures word in Index(Words(lines)) ==>
              var i := Index(Words(lines))[word];
              i < |lines| && ParseLine(lines[i]) == Line(word, Rows(lines)[i])
              && forall j :: i < j < |lines| ==> ParseLine(lines[j]).word != word
  {
    var ws := Words(lines);
    IndexIsLastOccurrence(ws);
    if word in Index(ws) {
      var i := Index(ws)[word];
      assert ws[i] == ParseLine(lines[i]).word;
      forall j | i < j < |lines| ensures ParseLine(lines[j]).word != word {
        assert ws[j] == ParseLine(lines[j]).word;
      }
    }
  }

  /** The first index from `from` on whose row length is not `width`, or `|rows|`. */
  function FirstMismatch(rows: seq<Row>, width: nat, from: nat): (k: nat)
    requires from <= |rows|
    ensures from <= k <= |rows|
    ensures forall j :: from <= j < k ==> |rows[j]| == width
    ensures k == |rows| || |rows[k]| != width
    decreases |rows| - from
  {
    if from == |rows| || |rows[from]| != width then from else FirstMismatch(rows, width, from + 1)
  }

  /**
   * `torch.stack(embeddings)`: succeeds exactly when there is at least one
   * row and every row has the length of the first; the stacked matrix keeps
   * the rows in order. A failure names the first row of another length.
   */
  function Stack(rows: seq<Row>): (r: Result<seq<Row>, LoadError>)
    ensures r.Ok? <==> |rows| > 0 && forall j :: 0 <= j < |rows| ==> |rows[j]| == |rows[0]|
    ensures r.Ok? ==> r.value == rows
    ensures r.Err? && r.error.SizeMismatch? ==>
              var k := r.error.at;
              0 < k < |rows| && |rows[k]| != |rows[0]| && r.error.expected == |rows[0]| && r.error.found == |rows[k]|
              && forall j :: 0 <= j < k ==> |rows[j]| == |rows[0]|
  {
    if rows == [] then Err(EmptyStack)
    else
      var k := FirstMismatch(rows, |rows[0]|, 1);
      if k == |rows| then Ok(rows) else Err(SizeMismatch(|rows[0]|, |rows[k]|, k))
  }

  /**
   * A blank line (or one of whitespace only) reads as the word "" with an
   * empty row, so among lines that carry components it makes loading fail.
   */
  lemma BlankLineBreaksStack(lines: seq<string>, i: nat, j: nat)
    requires i < |lines| && j < |lines|
    requires Strip(lines[i]) == ""
    requires |ParseLine(lines[j]).row| > 0
    ensures ParseLine(lines[i]) == Line("", [])
    ensures Stack(Rows(lines)).Err?
  {
    ParseLineUnique(lines[i], "", []);
    var rows := Rows(lines);
    assert |rows[i]| == 0 && |rows[j]| > 0;
  }

  /**
   * The loaded embeddings. `lines` is the file the object was loaded from;
   * `Valid()` says that the three structures are what loading it produces.
   * The constructor only sets up the empty structures and `ReadLines` fills
   * them; `Valid()` holds once `Load` has also stacked the rows, which is
   * where Python's `__init__` ends.
   */
  class GloVeEmbeddings {
    var stoi: map<string, nat>
    var itos: map<nat, string>
    var vectors: seq<Row>
    ghost var lines: seq<string>

    ghost predicate Valid()
      reads this
    {
      && stoi == Index(Words(lines))
      && itos == Itos(Words(lines))
      && vectors == Rows(lines)
      && Stack(Rows(lines)).Ok?
    }

    /** The empty dictionaries `stoi` and `itos` that the loop fills. */
    constructor ()
      ensures stoi == map[] && itos == map[] && vectors == [] && lines == []
    {
      stoi, itos, vectors := map[], map[], [];
      lines := [];
    }

    /**
     * The loop over the numbered lines of the file: line `i` sets
     * `stoi[word] = i` and `itos[i] = word` and appends its row to the list
     * it returns.
     */
    method ReadLines(input: seq<string>) returns (embeddings: seq<Row>)
      modifies this
      ensures stoi == old(stoi) + Index(Words(input))
      ensures itos == old(itos) + Itos(Words(input))
      ensures embeddings == Rows(input)
      ensures vectors == old(vectors) && lines == input
    {
      embeddings := [];
      var i := 0;
      while i < |input|
        invariant 0 <= i <= |input|
        invariant stoi == old(stoi) + Index(Words(input[..i]))
        invariant itos == old(itos) + Itos(Words(input[..i]))
        invariant embeddings == Rows(input[..i])
        invariant vectors == old(vectors)
      {
        var l := ParseLine(input[i]);
        WordsStep(input, i);
        RowsStep(input, i);
        IndexStep(Words(input[..i]), l.word);
        ItosStep(Words(input[..i]), l.word);
        UnionUpdate(old(stoi), Index(Words(input[..i])), l.word, i);
        UnionUpdate(old(itos), Itos(Words(input[..i])), i, l.word);
        stoi := stoi[l.word := i];
        itos := itos[i := l.word];
        embeddings := embeddings + [l.row];
        i := i + 1;
      }
      assert input[..i] == input;
      lines := input;
    }

    /**
     * `get_vector(word)`: absent exactly when the word is on no line;
     * otherwise the row of the last line that carries the word.
     */
    function GetVector(word: string): (r: Option<Row>)
      reads this
      requires Valid()
      ensures r.None? <==> word !in Words(lines)
      ensures r.Some? ==>
                word in stoi &&
                var i := stoi[word];
                i < |lines| && ParseLine(lines[i]) == Line(word, r.value)
                && forall j :: i < j < |lines| ==> ParseLine(lines[j]).word != word
    {
      LookupLine(lines, word);
      if word in stoi then Some(vectors[stoi[word]]) else None
    }
  }

  /**
   * Constructing `GloVeEmbeddings` from the lines of a file: fill the maps
   * and the row list, then stack the rows. Construction fails exactly when
   * stacking fails.
   */
  method Load(input: seq<string>) returns (r: Result<GloVeEmbeddings, LoadError>)
    ensures r.Err? <==> Stack(Rows(input)).Err?
    ensures r.Err? ==> r.error == Stack(Rows(input)).error
    ensures r.Ok? ==> fresh(r.value) && r.value.Valid() && r.value.lines == input
  {
    var g := new GloVeEmbeddings();
    var embeddings := g.ReadLines(input);
    var stacked := Stack(embeddings);
    if stacked.Err? {
      return Err(stacked.error);
    }
    g.vectors := stacked.value;
    EmptyUnion(Index(Words(input)));
    EmptyUnion(Itos(Words(input)));
    return Ok(g);
  }
}
