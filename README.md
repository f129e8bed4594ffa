# shughni-narratives corpus query library, modelled in Dafny

The library (`cortex.py`) reads annotated text documents and answers one kind of
query: which analyses of which tokens carry a given gloss. It has five classes:

- `Analysis`, `Token`, `Sentence`: records built from parsed JSON objects. The
  constructors normalise a few list-valued fields.
- `Text`: one document. It keeps the base-language (`lang == 0`) sentences and
  gives each one a map of the translations that share its paragraph id.
- `Corpus`: the texts of a folder.

`search_gloss` exists at each of the three levels. At sentence level it turns
each query gloss into one fixed regular expression and searches it in every
analysis's gloss string. Each hit becomes a result record. Text and corpus
search concatenate their children's results.

The model has seven modules.

- `PyValues`: the Python values a parsed JSON document holds. It also has the
  exceptions the library lets escape (`KeyError`, `IndexError`, `TypeError`) and
  the few Python operations the library applies to values: `d[k]`,
  `d[k] if k in d else None`, `x[0]`, `==` and hashing. An exception is an
  `Err` result, and the first one aborts the computation, as in Python.
- `Accumulate`: the loop shape used at every level. A `results` list is
  extended step by step, and a step that raises aborts the loop (`Concat`).
  Its algebra is proved here: success exactly when every step succeeds, the
  first exception wins, and nested loops equal one flattened loop.
- `GlossRegex`: the regular expression of `cortex.py:105-107` and Python's
  `re.search` of it, modelled step by step. Start positions are tried left to
  right, the four alternatives in pattern order, and the greedy padding longest
  first. The search is proved sound, complete and leftmost against a
  declarative description of a match. Whole mode and non-whole mode are then
  characterised in the library's own terms: morpheme segments between the `-`
  and `=` delimiters.
- `Records`: the `Analysis`, `Token` and `Sentence` constructors.
- `SentenceSearch`: `Sentence.search_gloss`.
  - The three nested loops are written as three methods, one per loop, each
    proved equal to its specification.
  - The loops are proved to visit the (query, token, analysis) positions in
    lexicographic order, with one record per hit.
  - The exceptions a hit can raise are characterised.
- `Texts`: `Text.__init__` from an already parsed document, and
  `Text.search_gloss`.
- `Corpora`: `Corpus.__init__` from a folder listing given as data, and
  `Corpus.search_gloss`.

Two behaviours of the source are reproduced as they are, not corrected:

- The translation lookup (`cortex.py:111-114`) catches only `IndexError`. A hit
  in a sentence whose translation map lacks key 1 therefore raises `KeyError`,
  and a hit in a sentence built without translations raises `TypeError`.
- A hit in a sentence without `para_alignment` raises `TypeError` at
  `cortex.py:127`.

Both are stated in `SearchHitFails` and `StepShape`.

Three facts about the search are worth knowing. All follow from the pattern as
written.

- In non-whole mode a query matches exactly when it occurs anywhere in the
  gloss (`PartialMeansOccurs`). The padding and the lookarounds can always be
  satisfied at the delimiters around the occurrence.
- A `.` in a query gloss is a regular-expression wildcard, because the query is
  interpolated unescaped. `3SG.M` therefore also matches `3SGxM`.
- Python's `$` also matches just before a newline that ends the string. In
  whole mode `PST` therefore matches the gloss `PST\n`, although no segment of
  that gloss equals `PST`. The segment reading of whole mode
  (`WholeMeansSegment`) holds only for glosses without a final newline.

## Model

| member | source | states |
|---|---|---|
| `Records.AnalysisOf` | cortex.py:6-29 | `gloss`, `parts` and `gloss_index` are the value when present, otherwise `None`. For `gr.pos`, `lex` and `trans_en`: a string `s` becomes `[s]`, an absent key or JSON `null` becomes `None`, and any other value passes through unchanged. |
| `Records.AnalysesOf` | cortex.py:47 | The analyses keep the length and order of the `ana` list, one `Analysis` per object. |
| `Records.TokenOf` | cortex.py:35-49 | A token builds exactly when `wf`, `off_start` and `off_end` are present. Otherwise the `KeyError` names the first one missing, in that order. The three values are copied. `wtype`, `next_word`, `sentence_index` and `sentence_index_neg` are the value when present, otherwise `None`. `ana` is `None` exactly when the key is absent, and otherwise keeps the list's length and order. |
| `Records.TokensOf` | cortex.py:64 | The words build exactly when every word builds, giving one token per word in order. Otherwise the exception is that of the first word that fails. |
| `Records.SentenceOf` | cortex.py:60-72 | A sentence builds exactly when `text` and `words` are present, every word builds, and `para_alignment[0]` can be read. A missing `text` raises before a missing `words`, then the first failing word's exception, then that of `para_alignment[0]`. `text` and `translations` are copied, `lang`, `meta` and `src_alignment` are the value when present, otherwise `None`, and `words` keeps the order and length of the word objects. |
| `Records.SentenceLength` | cortex.py:81-82 | `len(sentence)` is the number of word objects. |
| `Records.StringIsOneElementList` | cortex.py:11-27 | For a list-valued field, a lone string and the one-element list holding it give the same analysis. |
| `Records.AbsentIsNotEmpty` | cortex.py:19-22 | An absent `lex` (`None`) stays distinct from an empty list. |
| `Accumulate.ConcatOk` | cortex.py:170-175 | An extend-loop finishes exactly when no step raises, and then holds every step's items in step order. |
| `Accumulate.ConcatErr` | cortex.py:170-175 | When an extend-loop raises, the exception is that of the first step that raises. |
| `Accumulate.ConcatPrefixErr` | cortex.py:170-175 | Once a prefix of the steps has raised, the later steps change nothing. |
| `Accumulate.ConcatAppend` | cortex.py:170-175 | Running two lists of steps one after the other is running their concatenation. |
| `Accumulate.ConcatNested` | cortex.py:95-131 | Nested loops that extend one list run the flattened list of inner steps. |
| `Accumulate.ConcatSingles` | cortex.py:151-158 | When every step yields at most one item and none raises, item k comes from the k-th step that yields one. |
| `GlossRegex.Padding` | cortex.py:90 | The greedy `[^\-\=]*` takes the whole run of non-delimiter characters in non-whole mode, and nothing in whole mode. |
| `GlossRegex.TryStop` | cortex.py:86-89 | The trailing padding gives back characters one at a time. The result is the longest end at which `$` or the lookahead holds, or none exists. |
| `GlossRegex.TryBody` | cortex.py:105-107 | Backtracking over the leading padding finds an occurrence of the query followed by a valid stop, or proves there is none. |
| `GlossRegex.TryAt` | cortex.py:105-107 | The four alternatives, tried in pattern order at one start position, match exactly when some alternative can match there. |
| `GlossRegex.SearchFrom` | cortex.py:105-107 | The search returns a match at the leftmost start position that has one, and nothing when no position has one. |
| `GlossRegex.Search` | cortex.py:105-107 | `re.search` of the built pattern. The span lies within the gloss. |
| `GlossRegex.AlternativeSound` | cortex.py:106 | What one of the four anchor/stop alternatives reports at a start position is a match: the query placed between two paddings. |
| `GlossRegex.AlternativeComplete` | cortex.py:106 | Every match at a start position is found by the alternative whose anchor (`^` or the lookbehind) and stop (`$` or the lookahead) it uses. |
| `GlossRegex.PaddedWithinRun` | cortex.py:90 | The padding can match a stretch exactly when it lies within the greedy run. |
| `GlossRegex.WholeMatchesAt` | cortex.py:85-87 | In whole mode a match is exactly the query's characters, delimited by `-`/`=` or by the string's ends. |
| `GlossRegex.WholeSearch` | cortex.py:85-87 | Whole mode finds the leftmost delimited occurrence of the query. The span is exactly the query's length. |
| `GlossRegex.LeftmostWhole` | cortex.py:85-87 | In whole mode a delimited occurrence with none before it is the reported match, and the span is the query. |
| `GlossRegex.WholeMeansSegment` | cortex.py:85-87 | For a literal query and a gloss without a final newline, whole mode matches exactly when the query equals one `-`/`=`-delimited segment of the gloss, and the match text is then the query. |
| `GlossRegex.WholeAtSegment` | cortex.py:85-87 | A delimited occurrence of a literal query in a gloss without a final newline is one whole segment equal to the query. |
| `GlossRegex.SegmentWholeAt` | cortex.py:85-87 | A segment equal to a literal query is a delimited occurrence of it. |
| `GlossRegex.LiteralPatternAt` | cortex.py:106 | A query without `.` or delimiters matches exactly the identical characters. |
| `GlossRegex.PartialMeansOccurs` | cortex.py:88-90 | Non-whole mode matches exactly when the query occurs somewhere in the gloss. |
| `GlossRegex.PartialMatchText` | cortex.py:88-90 | The non-whole match contains the query, and every other character in it is a non-delimiter. It starts at the string's start or after a `.`/`-`/`=`, and ends at its end or before one. For a literal query it contains no `-` or `=`. |
| `GlossRegex.WholeImpliesPartial` | cortex.py:85-90 | Whatever whole mode matches, non-whole mode matches too. |
| `GlossRegex.ExampleWholeMatches` | cortex.py:85-87 | `PST` in whole mode matches `PST` and `do-PST`, on the last three characters. |
| `GlossRegex.ExampleWholeRejects` | cortex.py:85-87 | `PST` in whole mode matches neither `do-PST2` nor `PST.SG`. |
| `GlossRegex.ExampleWholeRejectsPrefix` | cortex.py:85-87 | `1` in whole mode does not match `1SG`. |
| `GlossRegex.ExamplePartialMatches` | cortex.py:88-90 | `PST` in non-whole mode matches `PST.SG`, `1.PST` and `PST2`. |
| `SentenceSearch.AnalysisStep` | cortex.py:102-130 | One analysis gives at most one record. `None` gloss or no match: nothing, and nothing raised. A non-string gloss raises `TypeError`. On a hit the translation lookup comes first, then the paragraph id, and the first failure decides the exception. Otherwise the record is built from this hit. |
| `SentenceSearch.Translation` | cortex.py:111-114 | `self.translations[1]`: a sentence built without translations raises `TypeError`. A dict without key 1 raises `KeyError(1)`, which the `except IndexError` does not catch. Otherwise the value at key 1. |
| `SentenceSearch.SentenceId` | cortex.py:127 | `self.para_alignment["para_id"]`: `TypeError` when `para_alignment` is `None` or not a dict, `KeyError("para_id")` when the key is missing, otherwise its value. |
| `SentenceSearch.RecordMeaning` | cortex.py:115-130 | Span bounds, with `match == gloss[span_a:span_b]`. The translation is `translations[1]`. In whole mode the match is the leftmost delimited occurrence, as long as the query, and equals the query when it is literal. In non-whole mode the match contains the query, and has no `-`/`=` when the query is literal. |
| `SentenceSearch.StepShape` | cortex.py:102-127 | With a string gloss: a miss gives nothing. A hit raises the translation lookup's exception first, then the paragraph id's. When both lookups succeed, a hit gives exactly one record. |
| `SentenceSearch.ScanAnalysis` | cortex.py:102-130 | The innermost loop body computes the step of `AnalysisStep`. |
| `SentenceSearch.ScanToken` | cortex.py:96-130 | The analysis loop of one token performs its steps in order. A token whose `ana` is `None` or empty contributes nothing. |
| `SentenceSearch.ScanTokens` | cortex.py:96-130 | The token loop for one query gloss performs its tokens' steps in order. |
| `SentenceSearch.SearchGloss` | cortex.py:84-131 | `search_gloss` returns the in-order concatenation of its query glosses' results, or the first exception raised. |
| `SentenceSearch.PositionsOrdered` | cortex.py:95-101 | The loops visit every (query, token, analysis) position, and only those, in lexicographic order. |
| `SentenceSearch.QueryPositionsOrdered` | cortex.py:96-101 | For one query gloss, the loops visit every (token, analysis) position in order. |
| `SentenceSearch.QueryStepsFlat` | cortex.py:96-130 | The token and analysis loops of one query gloss perform, in order, the steps of its positions. |
| `SentenceSearch.SearchFlat` | cortex.py:95-131 | The three nested loops perform, in order, the steps of all positions. |
| `SentenceSearch.SearchOrder` | cortex.py:91-131 | The records are one per hit, ordered by query, then token, then analysis. Each is built from its own hit. |
| `SentenceSearch.SearchRaisesFirst` | cortex.py:91-131 | An exception is that of the first position, in loop order, whose step raises. |
| `SentenceSearch.SearchNoHit` | cortex.py:98-109 | With string glosses and no hit, the result is empty and nothing is raised, whatever the translations and the paragraph alignment. |
| `SentenceSearch.SearchHitFails` | cortex.py:111-127 | With a hit, a missing translation key 1 raises `KeyError(1)` and absent translations raise `TypeError`. Otherwise a failing `para_alignment["para_id"]` raises its exception. |
| `SentenceSearch.SearchSucceeds` | cortex.py:111-130 | With string glosses and both lookups succeeding, the search raises nothing. |
| `SentenceSearch.BareQueryIsSingleton` | cortex.py:93-94 | A bare query string is searched as the one-element list holding it. |
| `SentenceSearch.StepSize` | cortex.py:102-130 | A step that does not raise yields one record at a hit and none elsewhere. |
| `Texts.TranslationStepRaises` | cortex.py:156-157 | One pass of the inner loop raises exactly when the entry breaks the map, with that entry's exception. |
| `Texts.TranslationsRaise` | cortex.py:155-157 | Building a translation map raises exactly when some entry breaks it, and then with the exception of the first such entry. An entry breaks the map when it is another language and its paragraph id fails, or the base entry's fails, or it is a partner without `text`. |
| `Texts.TranslationStepKeys` | cortex.py:156-157 | One pass of the inner loop adds the entry's language as a key exactly when the entry is a partner. |
| `Texts.TranslationsKeys` | cortex.py:155-157 | The map's keys are the languages of the other-language entries with the same first `para_id`. |
| `Texts.TranslationsLastWins` | cortex.py:155-157 | Each key holds the `text` of the last such entry in that language. Later entries overwrite earlier ones. |
| `Texts.TranslationsNoBase` | cortex.py:153-157 | Key 0 never appears in a translation map. |
| `Texts.TranslationsPrefixErr` | cortex.py:155-157 | Once the inner loop has raised on a prefix of the entries, the rest of the entries change nothing. |
| `Texts.BuildTranslations` | cortex.py:154-157 | The inner loop fills the dict in place to the map of `TranslationsOf`. |
| `Texts.CollectLangs` | cortex.py:149 | The language set is built as `LangsOf` states: a missing `lang` raises `KeyError` before an unhashable one raises `TypeError`. |
| `Texts.CollectSentences` | cortex.py:151-158 | The outer loop yields the results of `SentenceStep` for each entry, in order, and stops at the first exception. |
| `Texts.BuildText` | cortex.py:138-158 | `Text.__init__` from the parsed document. Errors come in source order: `meta`, `filename`, `sentences`, `lang`, unhashable `lang`, then the sentences. |
| `Texts.BaseIndicesFacts` | cortex.py:153 | The base indices are exactly the `lang == 0` entries, in increasing order. |
| `Texts.SentencesAreBases` | cortex.py:151-158 | When the outer loop succeeds, sentence k comes from the k-th base entry, built with that entry's translation map. |
| `Texts.TextSentences` | cortex.py:149-167 | The sentences are exactly the `lang == 0` entries, in document order. Each is built with its own translation map. `len(text)` is their count. |
| `Texts.TextLangs` | cortex.py:149 | `langs` is the set of every entry's `lang`. |
| `Texts.SearchText` | cortex.py:169-175 | `Text.search_gloss` is the in-order concatenation of its sentences' results. |
| `Texts.TextResultsSpec` | cortex.py:169-175 | A text search succeeds exactly when every sentence search does, and then the result is their concatenation and its length is the sum of theirs. Every record carries the text's own title and filename. Otherwise the exception is that of the first failing sentence. |
| `Corpora.LoadCorpus` | cortex.py:183-187 | The corpus keeps, in listing order, a text for each `.json` file entry. The first text that fails to build aborts the loading. |
| `Corpora.CorpusTexts` | cortex.py:183-187 | There is one text per `.json` file, in listing order, each built from its own document. `len(corpus)` is their count. |
| `Corpora.SearchCorpus` | cortex.py:198-203 | `Corpus.search_gloss` is the in-order concatenation of its texts' results. |
| `Corpora.CorpusResultsSpec` | cortex.py:198-203 | A corpus search succeeds exactly when every text search does. The result is their concatenation, its length is the sum of theirs, and each record carries the title and filename of a text of the corpus. Otherwise the exception is that of the first failing text. |

## Left out

- Reading files and parsing JSON (`cortex.py:137`) are left out. Documents are given already parsed, as `DocumentRecord`, `SentenceRecord` and `WordRecord` values.
- JSON numbers are integers only. Floating-point values are not modelled.
- Listing the folder and building paths (`cortex.py:180-185`) are left out. The listing is a given sequence of entries, in the order the platform returns them.
- The `__repr__` methods are debug formatting and are left out.
- The `__getitem__` methods are plain indexing and are left out.
- The metadata fields `author`, `source`, `year`, `genre`, `adjusted` and `parallel` are plain copies that nothing reads. `Text` keeps `meta`, `filename` and `title` only.
- `words`, `ana` and `sentences` that are present but are not lists are not representable. Python would raise `TypeError` for such values, or iterate a string or dict. The same holds for list elements that are not objects.
- `GlossRegex.Search` requires a query gloss without regular-expression metacharacters other than `.`. Python's general regex engine is not modelled, so a query with `*`, `[`, `(` and the like is outside the model.
- `SentenceSearch.SearchGloss` takes query glosses as strings. A non-string element of a query list, which the f-string would turn into its text, is not modelled.
- `PyValues.PyEq` compares booleans and integers as Python does at the top level only. Inside lists and dicts, `True == 1` is not modelled.
- `Texts.TranslationsKeys` states keys canonicalised (`True` as `1`, `False` as `0`). Python keeps whichever of the equal keys was inserted first, which the model does not capture.
- `Texts.TextLangs` states the `langs` set canonicalised in the same way.
- `Texts.BuildText` builds the text as a value. `Text` and `Corpus` are never changed after construction.
- The three loops of `search_gloss` are written as three methods, one per loop. An exception that leaves the innermost loop is returned through each of them.
- `Sentence` takes `translations` as a dict or `None` only, the two values the library passes. A list or tuple, for which `translations[1]` can raise the `IndexError` that cortex.py:113-114 catches, is not modelled. That branch, the only one that sets `translation` to `None`, is therefore unreachable in the model.
