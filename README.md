# assigntools core, modelled in Dafny

This project models the sequential bookkeeping at the heart of the
`assigntools` helpers for natural-language inference and lexical semantics,
and proves what that bookkeeping promises:

- **GloVe loader** (`glove.dfy`, module `GloVe`): the lines of a GloVe file
  are folded into `stoi` (word to line index), `itos` (line index to word)
  and a list of rows, which are then stacked into one matrix; `get_vector`
  looks a word up. The class `GloVeEmbeddings` holds the fields the loop
  updates. Vector components are kept as the text fields they are parsed
  from.
- **SNLI reader** (`read_nli.dfy`, module `ReadNli`): parsed SNLI records
  are filtered on their labels and turned into problem dictionaries. Each
  record's premise and hypothesis annotations (tokens from the binary
  parse, part-of-speech tags from the parse) go into `sen2anno`. There,
  every sentence collects references to the problems it occurs in. The
  class `Sen2Anno` is the dictionary that is updated in place. A
  restriction of `sen2anno` to the sentences of a set of problems is also
  modelled.
- **LangPro wrapper** (`langpro.dfy`, module `LangProWrapper`): the
  parameter checks (`align`, `pids`, `annos`), the classification of the
  data directory's files into token-annotation, sentence and parse files
  (class `LangPro`), and what `nli_prove` and `tableau_prove` do before
  the prover runs. That includes the `mode2html` table of tableau files.
- **Word/token alignment** (`word_alignment.dfy`, module `WordAlignment`):
  a tokenizer reports the source word of each token as `word_ids`. These
  are inverted into a map from word to token positions. Each word collects
  its tokens and two lists of hidden-state positions: the ones line 49
  reads as written, and the positions of the word's own tokens in the
  padded input, which is what that line evidently means (see "Findings").
- `py_text.dfy` (module `PyText`) states the Python string operations
  these rely on. These are `str.isspace`, `strip`, `split` (modelled as a
  cut at every character of a set, one character for `str.split(c)`),
  `join`, `endswith`, substring search, `str` of an integer and
  `os.path.join`. `common.dfy` holds `Option`, `Result`, two map lemmas and
  `DistinctCard`, which says that a list of distinct elements has as many
  elements as its set.

File contents, directory listings and the tokenizer's output are inputs of
the model. The set of existing files is an input too, as a set of paths.

## Model

| member | source | states |
|---|---|---|
| `PyText.Strip` | NLP/GloVe.py:29 | the result is a slice of the line, everything cut off is whitespace, and it neither starts nor ends with whitespace |
| `PyText.Split` | NLP/GloVe.py:29 | cutting at a set of separator characters yields at least one field and no field holds a separator |
| `PyText.JoinSplit` | NLP/GloVe.py:29 | joining the fields of `split(c)` with `c` gives the string back |
| `PyText.SplitJoin` | NLP/GloVe.py:29 | splitting a join of separator-free fields gives the fields back |
| `PyText.JoinWithContains` | M4LP/A2.py:48 | every part occurs in the `", "`-joined string |
| `PyText.NatToDecimal` | LoLa/read_nli.py:93 | `str(n)` is decimal digits without a leading zero; one digit below ten |
| `PyText.DecimalRoundTrip` | LoLa/read_nli.py:93 | reading back `str(n)` gives `n` |
| `PyText.IntToDecimal` | M4LP/A2.py:144 | `str(pid)` starts with `-` exactly for negative ids, and the rest is decimal digits whose value is `abs(pid)` |
| `PyText.IntToDecimalInjective` | M4LP/A2.py:144 | different ids give different `str(pid)` |
| `PyText.PathJoin` | M4LP/A2.py:53-54 | an absolute component replaces the directory; a relative one follows it after exactly one slash |
| `PyText.PathJoinInjective` | M4LP/A2.py:144 | one directory joined with two different relative names gives two different paths |
| `GloVe.ParseLine` | NLP/GloVe.py:29-31 | definition of the word and components of one line; contract in `ParseLineFields` and `ParseLineUnique` |
| `GloVe.ParseLineFields` | NLP/GloVe.py:29-31 | a line's word and components, joined by single spaces, are the stripped line, and no field holds a space |
| `GloVe.ParseLineUnique` | NLP/GloVe.py:29-31 | those are the only space-free fields that join back to the stripped line |
| `GloVe.Words` | NLP/GloVe.py:30 | definition of the word of each line, in order; contract in `StoiItosConsistent` and `LookupLine` |
| `GloVe.Index` | NLP/GloVe.py:34 | definition of `stoi` after the loop; contract in `IndexHas`, `IndexIsLastOccurrence` and `IndexSize` |
| `GloVe.IndexHas` | NLP/GloVe.py:34 | a word is a key of `stoi` exactly when some line carries it |
| `GloVe.IndexIsLastOccurrence` | NLP/GloVe.py:34 | `stoi` holds exactly the words that occur, each mapped to the last line that carries it |
| `GloVe.IndexSize` | NLP/GloVe.py:34 | `len(stoi)` is at most the number of lines, with equality exactly when no word repeats |
| `GloVe.Itos` | NLP/GloVe.py:35 | definition of `itos` after the loop; contract in `ItosSize` and `StoiItosConsistent` |
| `GloVe.Rows` | NLP/GloVe.py:31-36 | definition of `embeddings` after the loop, one row per line; contract in `GloVeEmbeddings.ReadLines` and `LookupLine` |
| `GloVe.ItosSize` | NLP/GloVe.py:35 | after N lines `itos` has exactly the keys 0 .. N-1 |
| `GloVe.StoiItosConsistent` | NLP/GloVe.py:34-35 | `itos[stoi[w]] == w` with `stoi[w]` a line index, and every word of `itos` is a key of `stoi` |
| `GloVe.OrphanedRow` | NLP/GloVe.py:34-36 | the row of a line whose word occurs again later is reached by no key of `stoi` |
| `GloVe.StoiItosSizes` | NLP/GloVe.py:34-41 | `len(stoi) <= len(itos)`, equal exactly when all words are distinct |
| `GloVe.LookupLine` | NLP/GloVe.py:43-48 | a word is in `stoi` exactly when a line carries it, and `stoi` leads to the last such line and its row |
| `GloVe.Stack` | NLP/GloVe.py:39 | stacking succeeds exactly when there is a row and all rows have the first row's length; a failure names the first row of another length |
| `GloVe.BlankLineBreaksStack` | NLP/GloVe.py:29-39 | a blank line reads as word `""` with no components and makes stacking fail beside a line that has components |
| `GloVe.GloVeEmbeddings.constructor` | NLP/GloVe.py:19-21 | `stoi`, `itos` and the rows start empty |
| `GloVe.GloVeEmbeddings.ReadLines` | NLP/GloVe.py:27-36 | the loop sets `stoi` and `itos` to their values for all lines and returns one row per line, in order |
| `GloVe.GloVeEmbeddings.GetVector` | NLP/GloVe.py:43-48 | `None` exactly when no line carries the word; otherwise the row of the last line that does |
| `GloVe.Load` | NLP/GloVe.py:13-39 | construction fails exactly when stacking fails, with its error; otherwise the object is consistent with the lines |
| `ReadNli.Tokens` | LoLa/read_nli.py:111 | the tokens are non-empty and hold no parenthesis or space |
| `ReadNli.TokensAreNonEmptyFields` | LoLa/read_nli.py:111 | the tokens are the non-empty fields of the binary parse cut at every parenthesis and space |
| `ReadNli.BracketLabel` | LoLa/read_nli.py:112 | a bracket yields a tag exactly when its inside has whitespace with text on both sides; the tag is the greedy head before the last such whitespace |
| `ReadNli.PosFrom` | LoLa/read_nli.py:112 | every tag found by the scan is non-empty and holds no parenthesis |
| `ReadNli.PosAtMostBrackets` | LoLa/read_nli.py:112 | there are no more tags than opening parentheses |
| `ReadNli.PosTags` | LoLa/read_nli.py:112 | definition of the tags `re.findall` collects; contract in `PosFrom` and `PosAtMostBrackets` |
| `ReadNli.ReadSentenceAnno` | LoLa/read_nli.py:102-115 | definition of `read_sentence_anno`; contract in `ReadSentenceAnnoSpec` |
| `ReadNli.ReadSentenceAnnoSpec` | LoLa/read_nli.py:102-115 | the annotation holds both trees, the tokens and the tags, and it fails exactly when their counts differ |
| `ReadNli.KeepLabels` | LoLa/read_nli.py:91-92 | definition of the annotator labels that are listed, in order; contract in `KeptLabelCounts` |
| `ReadNli.KeptLabelCounts` | LoLa/read_nli.py:91-92 | the counter counts each listed label as often as the annotators gave it and holds no other label |
| `ReadNli.LabelType` | LoLa/read_nli.py:93 | definition of `ltype`; contract in `LabelTypeDigits` |
| `ReadNli.LabelTypeDigits` | LoLa/read_nli.py:93 | with counts below ten, `ltype` has one digit per label, the label's count, in label order |
| `ReadNli.Prob2Dict` | LoLa/read_nli.py:75-99 | definition of `json_prob2dict`; contract in `Prob2DictSpec` |
| `ReadNli.Prob2DictSpec` | LoLa/read_nli.py:75-99 | the problem carries the record's ids and sentences, `lnum` is the total of `lcnt`'s counts, `lcnt` counts exactly the listed labels, `ltype` lists the counts; it fails exactly when an annotation fails |
| `ReadNli.Keep` | LoLa/read_nli.py:38-45 | definition of the label filter; contract in `KeepIff` |
| `ReadNli.KeepIff` | LoLa/read_nli.py:38-45 | a record is kept exactly when its gold label is listed and, with `clean_labels`, all its annotator labels are listed |
| `ReadNli.Updated` | LoLa/read_nli.py:61-71 | definition of `update_sen2anno` on a dictionary value; contract in `UpdatedSpec`, `UpdatedIdempotent` and `UpdatedGrows` |
| `ReadNli.UpdatedSpec` | LoLa/read_nli.py:61-71 | the sentence is present with the reference, keys grow by at most the sentence, a known sentence only gains the reference, a new one gets the annotation with `{ref}`, others are unchanged |
| `ReadNli.UpdatedIdempotent` | LoLa/read_nli.py:66-70 | repeating an update changes nothing |
| `ReadNli.Sen2Anno.constructor` | LoLa/read_nli.py:27 | `sen2anno` starts empty |
| `ReadNli.Sen2Anno.Update` | LoLa/read_nli.py:61-71 | the dictionary becomes its update with the sentence and reference |
| `ReadNli.Sentences` | LoLa/read_nli.py:126-129 | definition of the premises and hypotheses of the problems; contract in `SentencesToAnno` |
| `ReadNli.FirstMissing` | LoLa/read_nli.py:126-130 | the first sentence, premise before hypothesis, that the dictionary lacks, which is the key of the `KeyError`; none exactly when every sentence is present |
| `ReadNli.SentencesToAnno` | LoLa/read_nli.py:119-131 | the result's keys are exactly the premises and hypotheses, each with the input's entry; otherwise the error is the first missing sentence, going through the problems in order, premise before hypothesis |
| `ReadNli.KeptPids` | LoLa/read_nli.py:38-48 | definition of the pair ids of the kept records; contract in `KeptPidsIff` |
| `ReadNli.KeptPidsIff` | LoLa/read_nli.py:38-48 | a pair id is kept exactly when some kept record carries it |
| `ReadNli.UpdatedGrows` | LoLa/read_nli.py:61-71 | an update keeps every sentence with its annotation and references |
| `ReadNli.RefsRecordedGrows` | LoLa/read_nli.py:50-51 | references recorded for the kept records of a part survive later updates |
| `ReadNli.Judge` | LoLa/read_nli.py:38-47 | definition of the verdict on one record; contract in `VerdictAt` and `RecordReadIff` |
| `ReadNli.Verdicts` | LoLa/read_nli.py:35-47 | definition of the verdicts on a part's records, in order; contract in `VerdictAt`, `VerdictsRaise`, `VerdictsPids`, `VerdictsSentences` and `VerdictsRefs` |
| `ReadNli.VerdictAt` | LoLa/read_nli.py:38-47 | the verdict on a record drops it exactly when the label filter rejects it, raises exactly when it is kept and `json_prob2dict` fails, and otherwise files what `json_prob2dict` returns, under the record's pair id and sentences |
| `ReadNli.RecordRead` | LoLa/read_nli.py:47-51 | definition of one pass of the record loop on a verdict; contract in `RecordReadIff` and `RecordReadGrows` |
| `ReadNli.RecordReadGrows` | LoLa/read_nli.py:47-51 | one pass only grows `sen2anno`, adds at most the filed problem's two sentences, and leaves both carrying the problem's references |
| `ReadNli.RecordReadIff` | LoLa/read_nli.py:38-51 | a dropped record changes nothing; a kept one raises exactly when its annotations fail; otherwise its problem is filed under its pair id and both sentences carry its references |
| `ReadNli.PartRead` | LoLa/read_nli.py:35-51 | definition of the record loop of one part as a fold over its verdicts; contract in `PartReadStuck`, `PartReadFails`, `PartReadKeys`, `PartReadRefs`, `PartReadGrows`, `PartReadSentences`, `PartReadOthers`, `PartReadLast`, `PartReadOk`, `PartReadPids`, `PartReadRecorded` |
| `ReadNli.PartReadStuck` | LoLa/read_nli.py:47 | once `json_prob2dict` has raised, the rest of the records change nothing |
| `ReadNli.PartReadFails` | LoLa/read_nli.py:35-51 | the loop raises exactly when some record's verdict raises |
| `ReadNli.PartReadKeys` | LoLa/read_nli.py:48 | without an exception the problem keys gain exactly the filed pair ids |
| `ReadNli.PartReadRefs` | LoLa/read_nli.py:50-51 | without an exception both sentences of every filed problem carry its references |
| `ReadNli.PartReadGrows` | LoLa/read_nli.py:50-51 | `sen2anno` keeps every sentence with its annotation and references |
| `ReadNli.PartReadSentences` | LoLa/read_nli.py:50-51 | `sen2anno` gains only sentences of filed problems |
| `ReadNli.PartReadOthers` | LoLa/read_nli.py:48 | a pair id that no record files keeps its problem, or its absence |
| `ReadNli.PartReadLast` | LoLa/read_nli.py:48 | under a pair id filed more than once, the problem of the last such record is kept |
| `ReadNli.VerdictsRaise` | LoLa/read_nli.py:38-47 | no record raises exactly when every kept record's annotations are readable |
| `ReadNli.VerdictsPids` | LoLa/read_nli.py:38-48 | when every kept record is readable, the filed pair ids are exactly the kept ones |
| `ReadNli.VerdictsSentences` | LoLa/read_nli.py:38-51 | the filed sentences are sentences of kept records |
| `ReadNli.VerdictsRefs` | LoLa/read_nli.py:38-51 | references for every filed problem are references for every kept record |
| `ReadNli.PartReadOk` | LoLa/read_nli.py:35-47 | a part's loop raises exactly when a kept record's annotations fail |
| `ReadNli.PartReadPids` | LoLa/read_nli.py:35-48 | without an exception a part's problems gain exactly the kept pair ids |
| `ReadNli.PartReadRecorded` | LoLa/read_nli.py:35-51 | without an exception every kept record's premise and hypothesis carry its references |
| `ReadNli.PartReadSummary` | LoLa/read_nli.py:35-51 | all of these together, and `sen2anno` only grows, by sentences of kept records |
| `ReadNli.ReadRecord` | LoLa/read_nli.py:38-51 | one pass: `sen2anno` and the result are exactly those of `RecordRead` on the record's verdict (dropped, raised, or filed with both `update_sen2anno` calls) |
| `ReadNli.ReadRecords` | LoLa/read_nli.py:35-51 | the record loop: `sen2anno` and the result are exactly those of the fold `PartRead` over the records' verdicts |
| `ReadNli.ReadPart` | LoLa/read_nli.py:35-51 | that exact state, and: a part fails exactly when a kept record's annotations fail; otherwise its problems are keyed by exactly the kept pair ids and every kept sentence is referenced; `sen2anno` only grows, by kept sentences |
| `ReadNli.PartNamesAre` | LoLa/read_nli.py:31 | the part names are those of the part files |
| `ReadNli.PartPids` | LoLa/read_nli.py:31-48 | definition of the kept pair ids over the part files with one name; contract in `PartPidsAbsent` and `CorpusReadPids` |
| `ReadNli.PartPidsAbsent` | LoLa/read_nli.py:31-47 | a name no part file carries collects no pair ids |
| `ReadNli.CorpusRead` | LoLa/read_nli.py:31-51 | definition of the loop over the part files; contract in `CorpusReadStuck`, `CorpusReadOk`, `CorpusReadKeys`, `CorpusReadPids`, `CorpusReadRefs` |
| `ReadNli.CorpusReadStuck` | LoLa/read_nli.py:31-51 | once a part has raised, the later parts change nothing |
| `ReadNli.CorpusReadOk` | LoLa/read_nli.py:31-51 | reading the parts succeeds exactly when every kept record of every part is readable |
| `ReadNli.CorpusReadKeys` | LoLa/read_nli.py:26-52 | on success `snli` has exactly the part names as keys, since `len(snli[s])` creates every part's entry |
| `ReadNli.StoreKeys` | LoLa/read_nli.py:48 | storing a part's problems under its name extends that name's keys and no other |
| `ReadNli.CorpusReadPids` | LoLa/read_nli.py:26-52 | on success the problems under each name are keyed by exactly the kept pair ids of all part files with that name |
| `ReadNli.CorpusReadRefs` | LoLa/read_nli.py:31-51 | on success every kept record of every part has both sentences referenced |
| `ReadNli.Jsonl2Dict` | LoLa/read_nli.py:11-57 | definition of `snli_jsonl2dict` on the part files; contract in `Jsonl2DictFacts` |
| `ReadNli.Jsonl2DictFacts` | LoLa/read_nli.py:11-57 | no part file is an error; the call succeeds exactly when every kept record of every part is readable; then `snli`'s keys are the part names, each name's problems are keyed by exactly its files' kept pair ids, and every kept sentence is referenced |
| `ReadNli.SnliJsonl2Dict` | LoLa/read_nli.py:11-57 | the loops over the part files and their records compute exactly `Jsonl2Dict` |
| `LangProWrapper.CheckAlign` | M4LP/A2.py:33-36 | exactly `align`, `no_align` and `both` are accepted, each naming its mode; anything else fails |
| `LangProWrapper.CheckAlignName` | M4LP/A2.py:35-36 | the name of every mode passes the check |
| `LangProWrapper.CheckPids` | M4LP/A2.py:38-44 | `None` and `'all'` become `'_'`, other strings and lists pass unchanged, any other value fails |
| `LangProWrapper.CheckPidsIdempotent` | M4LP/A2.py:38-44 | checking a checked value changes nothing |
| `LangProWrapper.Lookup` | M4LP/A2.py:111 | a found value belongs to an item with that key; nothing is found when no item has the key |
| `LangProWrapper.SetItem` | M4LP/A2.py:47 | the key gets the value, other keys keep theirs, and a new key goes last |
| `LangProWrapper.SetItemInPlace` | M4LP/A2.py:47 | setting an existing key keeps every key in its place |
| `LangProWrapper.SetItemDistinct` | M4LP/A2.py:47 | setting an item keeps the keys distinct |
| `LangProWrapper.SetItemIdempotent` | M4LP/A2.py:46-48 | setting the same item twice is setting it once |
| `LangProWrapper.SetItemLast` | M4LP/A2.py:47-48 | `ner` comes last exactly when it was absent or already last |
| `LangProWrapper.AnnoSys` | M4LP/A2.py:48 | definition of the joined `annotation-tool` list; contract in `AnnoSysMentions` and `CheckedAnnoSysHasNer` |
| `LangProWrapper.AnnoSysMentions` | M4LP/A2.py:48 | every `annotation-tool` pair of the dictionary appears in `anno_sys` |
| `LangProWrapper.CheckedAnnoSysHasNer` | M4LP/A2.py:46-48 | after the check `anno_sys` always contains `ner-'cc2016.st'` |
| `LangProWrapper.AnnoDict.constructor` | M4LP/A2.py:81 | a dictionary of distinct keys |
| `LangProWrapper.CheckAnnos` | M4LP/A2.py:46-48 | the caller's dictionary gets `ner` set in place, keeps distinct keys, and the returned list is built from the updated dictionary |
| `LangProWrapper.TableauModes` | M4LP/A2.py:142-143 | two (mode, answer) pairs per selected mode |
| `LangProWrapper.HtmlName` | M4LP/A2.py:144 | definition of a tableau file name; contract in `Mode2HtmlInjective` |
| `LangProWrapper.Mode2Html` | M4LP/A2.py:142-144 | definition of `mode2html`; contract in `Mode2HtmlKeys` and `Mode2HtmlInjective` |
| `LangProWrapper.Mode2HtmlKeys` | M4LP/A2.py:142-144 | the keys are each answer in each selected mode: four for `both`, two otherwise |
| `LangProWrapper.Mode2HtmlInjective` | M4LP/A2.py:144 | no two keys share a file |
| `LangProWrapper.ParserFrom` | M4LP/A2.py:67-70 | the first parser whose `_name` occurs in the file name, none before it matching |
| `LangProWrapper.KindOf` | M4LP/A2.py:62-70 | definition of the kind a file name selects; contract in `KindOfIff` and `AnnoSenIsSen` |
| `LangProWrapper.AnnoSenIsSen` | M4LP/A2.py:62-64 | a token-annotation file name also ends in `_sen.pl`, so the order of the tests matters |
| `LangProWrapper.KindOfIff` | M4LP/A2.py:62-70 | `anno_sen.pl` selects the token file, another `_sen.pl` the sentence file, else the first matching parser, else nothing |
| `LangProWrapper.LastIndexOfKind` | M4LP/A2.py:61-70 | the index of a file of the kind with none of that kind after it; none exactly when no file has the kind |
| `LangProWrapper.LastOfKind` | M4LP/A2.py:61-70 | definition of the file an attribute holds after the loop; contract in `LastIndexOfKind` and `LastOfKindStep` |
| `LangProWrapper.ParseFiles` | M4LP/A2.py:59-70 | definition of `self.parses` after the loop; contract in `ParseFilesAt`, `Init` and `LangPro.ScanDataDir` |
| `LangProWrapper.LastOfKindStep` | M4LP/A2.py:61-69 | a later file overrides only the earlier file of its own kind |
| `LangProWrapper.Init` | M4LP/A2.py:52-73 | construction succeeds exactly when both prover files exist and the directory has a token-annotation and a sentence file; parse keys are known parsers |
| `LangProWrapper.InitAsWritten` | M4LP/A2.py:52-61 | as written, construction never succeeds; with both prover files present it fails on the name `os` |
| `LangProWrapper.InitAsWrittenRejectsCompleteSetup` | M4LP/A2.py:61 | a complete setup that the intended constructor accepts is rejected as written |
| `LangProWrapper.LangPro.constructor` | M4LP/A2.py:53-59 | the prover paths are joined to the prover directory and the parse table is empty |
| `LangProWrapper.LangPro.ScanEntry` | M4LP/A2.py:62-70 | one file sets exactly the attribute its kind selects |
| `LangProWrapper.LangPro.ScanDataDir` | M4LP/A2.py:61-70 | after the loop each attribute holds the last file of its kind, or its earlier value when there is none |
| `LangProWrapper.Create` | M4LP/A2.py:52-73 | the object built has exactly the attributes `Init` describes, and construction fails exactly when `Init` does |
| `LangProWrapper.NliProve` | M4LP/A2.py:97-111 | `pids`, then `align`, then `annos` are checked, a failed check leaving `annos` alone; then the parse file of `annos['ccg']` is looked up |
| `LangProWrapper.TableauProve` | M4LP/A2.py:128-145 | `align` is checked before `annos` changes; a missing depccg parse is an error; otherwise the result is `mode2html` |
| `WordAlignment.DropNone` | NLP/deep_learning.py:30 | dropping `None` never lengthens the list |
| `WordAlignment.SomePositions` | NLP/deep_learning.py:30 | as many positions as kept word ids, the t-th kept word id being the one at the t-th position |
| `WordAlignment.SomePositionsIncreasing` | NLP/deep_learning.py:30 | those positions are strictly increasing, so the filter keeps the order |
| `WordAlignment.SomePositionsCover` | NLP/deep_learning.py:30 | every non-`None` position is among them |
| `WordAlignment.DropNoneHas` | NLP/deep_learning.py:30 | a word index survives the filter exactly when some token came from it |
| `WordAlignment.Positions` | NLP/deep_learning.py:35-37 | the positions holding a value, strictly increasing, all of them |
| `WordAlignment.PositionMap` | NLP/deep_learning.py:35-38 | definition of `dict(mapping)` for one sentence; contract in `PositionMapInverts` and `WordToTokens` |
| `WordAlignment.PositionMapStep` | NLP/deep_learning.py:37 | appending a token position extends only its own word's list, creating it when new |
| `WordAlignment.PositionMapInverts` | NLP/deep_learning.py:33-38 | the map inverts the token-to-word list: keys are the words present, lists are non-empty and increasing, and they partition the token positions |
| `WordAlignment.WordToTokens` | NLP/deep_learning.py:35-38 | the loop builds exactly the position map |
| `WordAlignment.WordPosToTokPos` | NLP/deep_learning.py:33-38 | one position map per sentence of the batch |
| `WordAlignment.HiddenPositionsAsWritten` | NLP/deep_learning.py:49 | the positions line 49 reads lie inside the padded input |
| `WordAlignment.HiddenPositions` | NLP/deep_learning.py:49 | the positions of a word's hidden states are exactly the input positions whose word id is that word |
| `WordAlignment.Through` | NLP/deep_learning.py:30-49 | definition of carrying positions in the filtered list to positions in the padded input; contract in `HiddenPositionsThrough` and `EntryForPairs` |
| `WordAlignment.HiddenPositionsThrough` | NLP/deep_learning.py:30-49 | the corrected positions are the as-written ones carried from the filtered list into the padded input |
| `WordAlignment.HiddenPositionsAsWrittenMisaligned` | NLP/deep_learning.py:49 | with word ids `[None, 0, 1, None]` word 0 reads position 0 as written, where its token is at position 1 |
| `WordAlignment.EntryFor` | NLP/deep_learning.py:48-51 | a word's entry lists its tokens in order, the positions line 49 reads as written and the corrected positions; no token is a key error and a position past the token list an index error |
| `WordAlignment.EntryForAligned` | NLP/deep_learning.py:35-48 | with a token list matching the word ids, a word has an entry exactly when some token came from it |
| `WordAlignment.EntryForPairs` | NLP/deep_learning.py:48-49 | in an entry the positions read as written are the token positions of the word, and the m-th token and the m-th corrected position belong to the same token |
| `WordAlignment.SentenceEntries` | NLP/deep_learning.py:46-53 | one entry per word of the sentence |
| `WordAlignment.VectorizeSentence` | NLP/deep_learning.py:46-53 | the loop fails at the first word without an entry and otherwise lists every word's entry (both position lists) in order |
| `WordAlignment.TransformerWord2Convec` | NLP/deep_learning.py:28-54 | the batch succeeds exactly when every sentence does, with each sentence's entries (both position lists) |

## Left out

- File reading, `os.path.exists` and `FileNotFoundError` (NLP/GloVe.py:24-27), directory listings, `json.loads`, `tqdm` and every `print`. File contents and listings are inputs, and so are the parsed records.
- Float parsing and torch tensors. A GloVe component stays the text field `float` would read, so the `ValueError` of a malformed or empty field (two spaces in a row) is not modelled. Only the shape check of `torch.stack` is kept.
- `ReadNli.ReadSentenceAnno`: a mismatch is one error value. The assertion's message names an undefined `i` (LoLa/read_nli.py:114), so Python raises `NameError` rather than `AssertionError`; the model does not tell the two apart. Running Python with `-O`, which drops assertions, is not modelled.
- Object identity in `update_sen2anno`: the stored annotation is the caller's own dict, and it gains the `'pids'` key. The model stores values, so this aliasing and the `deepcopy` at LoLa/read_nli.py:130 are not distinguished.
- The part-name extraction in `snli_jsonl2dict` (regex over the directory listing, `f[9:-6]`) and the `weird_lab` reporting (LoLa/read_nli.py:20-24, 32, 39-43, 52-56). Parts are given as a list of (name, records).
- `os.path.abspath` (M4LP/A2.py:53-55, 63-69): paths are kept as joined, relative to the working directory.
- `run_cmd`, the swipl command lines, the prover's output, `testfun`, the `int(pid)` conversion and the options `kb`, `ral`, `parallel`, `parts`, `labels` (M4LP/A2.py:4-29, 101-114, 131-141). `NliProve` and `TableauProve` stop where the prover would run.
- `LangProWrapper.CheckAlign` returns the accepted mode, where Python returns nothing; it fails on the same values.
- `ReadNli.SentencesToAnno`: the model fails on a sentence missing from `sen2anno`. With the `defaultdict(dict)` that `snli_jsonl2dict` returns (LoLa/read_nli.py:27, 57), `sen2anno[sen]` at LoLa/read_nli.py:130 instead inserts `{}` into the caller's dictionary and copies it: no `KeyError` is raised and the input is changed. The model follows the plain-dictionary reading that the docstring assumes.
- `LangProWrapper.CheckPids`: `PyValue` lists the kinds of value that matter (None, string, list, integer, other). Subclasses of `str` and `list` are not distinguished.
- The shared mutable default `annos` of `nli_prove` and `tableau_prove`: a caller that omits `annos` gets one dictionary shared across calls, which `check_annos_param` changes. The model always takes the dictionary as an argument.
- The tokenizer, the transformer, `hidden_states` and the averaging of vectors (`collate_tok_vec`). Each entry records which hidden-state positions would be averaged: those line 49 reads as written (`asRead`) and the corrected ones (`positions`).
- `WordAlignment.EntryFor`: the corrected `positions` are not something the code computes; they sit beside the as-written `asRead` so that the finding on line 49 can be stated against each entry.
- `WordAlignment.TransformerWord2Convec` requires one token list and one word-id list per sentence, as the tokenizer returns them.
- `WordAlignment.DropNone`: its own contract only bounds the length. Its contents are stated through `SomePositions` and `DropNoneHas`.
- LoLa/tp.py and LoLa/sen_analysis.py, which are wrappers around NLTK and spaCy, are not part of this model.

## Findings

| source | as written | input that shows it | evidently intended | confidence | as-written member | corrected member |
|---|---|---|---|---|---|---|
| M4LP/A2.py:61 | the data directory is listed with `os.listdir`, but the module imports only `os.path`, as `op` (line 2), so the name `os` is undefined | prover directory `LangPro` with `prolog/main.pl` and `WNProlog/wn.pl`, data files `sick_anno_sen.pl`, `sick_sen.pl`, `sick_depccg.pl` (`InitAsWrittenRejectsCompleteSetup`) | list the directory (`import os`) and classify its files | high; not executed | `LangProWrapper.InitAsWritten` | `LangProWrapper.Create` |
| NLP/deep_learning.py:49 | the hidden states of the padded input are indexed with positions in the token list without special tokens | word ids `[None, 0, 1, None]` (a leading special token): word 0 reads position 0, the special token's state (`HiddenPositionsAsWrittenMisaligned`) | read the hidden states at the word's own token positions in the padded input | medium; not executed | `WordAlignment.HiddenPositionsAsWritten` | `WordAlignment.HiddenPositions` |
