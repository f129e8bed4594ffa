/** `Corpus` (cortex.py:178-203): the texts of a folder's `.json` files, and the
    search over all of them. */
module Corpora {
  import opened PyValues
  import opened Accumulate
  import opened SentenceSearch
  import opened Texts

  /** One entry of the folder listing, with the document a `.json` file parses to. */
  datatype DirEntry = DirEntry(name: string, isFile: bool, doc: DocumentRecord)

  datatype Corpus = Corpus(texts: seq<Text>)

  /** `os.path.isfile(...) and f.endswith(".json")`. */
  predicate IsJsonFile(e: DirEntry) {
    e.isFile && |e.name| >= 5 && e.name[|e.name| - 5..] == ".json"
  }

  function LoadStep(e: DirEntry): Result<seq<Text>> {
    if !IsJsonFile(e) then Ok([])
    else
      match TextOf(e.doc)
      case Err(err) => Err(err)
      case Ok(t) => Ok([t])
  }

  function LoadSteps(entries: seq<DirEntry>): seq<Result<seq<Text>>> {
    seq(|entries|, i requires 0 <= i < |entries| => LoadStep(entries[i]))
  }

  /** `Corpus(folderpath)` on the listing, in listing order. */
  function CorpusOf(entries: seq<DirEntry>): Result<Corpus> {
    match Concat(LoadSteps(entries))
    case Err(e) => Err(e)
    case Ok(texts) => Ok(Corpus(texts))
  }

  method LoadCorpus(entries: seq<DirEntry>) returns (r: Result<Corpus>)
    ensures r == CorpusOf(entries)
  {
    ghost var steps := LoadSteps(entries);
    var files: seq<Text> := [];
    for i := 0 to |entries|
      invariant Concat(steps[..i]) == Ok(files)
    {
      var f := entries[i];
      ConcatStep(steps, i);
      if IsJsonFile(f) {
        var t := BuildText(f.doc);
        assert steps[i] == LoadStep(f);
        if t.Err? {
          ConcatPrefixErr(steps, i + 1);
          return Err(t.error);
        }
        files := files + [t.value];
      } else {
        assert files + [] == files;
      }
    }
    assert steps[..|steps|] == steps;
    return Ok(Corpus(files));
  }

  /** A listing that loads: one text per `.json` file, in listing order, each
      built from its own document; other entries are skipped. */
  lemma CorpusTexts(entries: seq<DirEntry>)
    requires CorpusOf(entries).Ok?
    ensures var texts := CorpusOf(entries).value.texts;
            var files := Singles(LoadSteps(entries));
            && TextCount(CorpusOf(entries).value) == |texts| == |files|
            && (forall i :: i in files <==> 0 <= i < |entries| && IsJsonFile(entries[i]))
            && forall k :: 0 <= k < |files| ==> files[k] < |entries| && TextOf(entries[files[k]].doc) == Ok(texts[k])
  {
    var steps := LoadSteps(entries);
    ConcatOk(steps);
    SinglesFacts(steps);
    ConcatSingles(steps);
  }

  function TextCount(c: Corpus): nat {
    |c.texts|
  }

  // ------------------------------------------------------------------
  // `Corpus.search_gloss` (cortex.py:198-203).

  function CorpusSteps(c: Corpus, query: Query, whole: bool): seq<Result<seq<Match>>>
    requires QueriesPlain(Glosses(query))
  {
    seq(|c.texts|, i requires 0 <= i < |c.texts| => TextResults(c.texts[i], query, whole))
  }

  function CorpusResults(c: Corpus, query: Query, whole: bool): Result<seq<Match>>
    requires QueriesPlain(Glosses(query))
  {
    Concat(CorpusSteps(c, query, whole))
  }

  method SearchCorpus(c: Corpus, query: Query, whole: bool) returns (r: Result<seq<Match>>)
    requires QueriesPlain(Glosses(query))
    ensures r == CorpusResults(c, query, whole)
  {
    ghost var steps := CorpusSteps(c, query, whole);
    var results: seq<Match> := [];
    for iText := 0 to |c.texts|
      invariant Concat(steps[..iText]) == Ok(results)
    {
      var res := SearchText(c.texts[iText], query, whole);
      assert steps[iText] == res;
      ConcatStep(steps, iText);
      if res.Err? {
        ConcatPrefixErr(steps, iText + 1);
        return res;
      }
      results := results + res.value;
    }
    assert steps[..|steps|] == steps;
    return Ok(results);
  }

  /** The corpus results are its texts' results one after the other, so their
      number is the sum of theirs, and every record carries the title and
      filename of the text it came from; the first text that raises aborts the
      search. */
  lemma CorpusResultsSpec(c: Corpus, query: Query, whole: bool)
    requires QueriesPlain(Glosses(query))
    ensures var steps := CorpusSteps(c, query, whole);
            && (CorpusResults(c, query, whole).Ok? <==> AllOk(steps))
            && (AllOk(steps) ==> && CorpusResults(c, query, whole).value == Flatten(Values(steps))
                                 && |CorpusResults(c, query, whole).value| == SumLengths(Values(steps)))
    ensures CorpusResults(c, query, whole).Err? ==>
              exists i :: 0 <= i < |c.texts| && TextResults(c.texts[i], query, whole) == CorpusResults(c, query, whole)
                          && forall j :: 0 <= j < i ==> TextResults(c.texts[j], query, whole).Ok?
    ensures CorpusResults(c, query, whole).Ok? ==>
              forall m :: m in CorpusResults(c, query, whole).value ==>
                exists i :: 0 <= i < |c.texts| && m.textTitle == c.texts[i].title
                                               && m.filename == ToOption(c.texts[i].filename)
  {
    var steps := CorpusSteps(c, query, whole);
    var r := CorpusResults(c, query, whole);
    ConcatOk(steps);
    if AllOk(steps) {
      FlattenLength(Values(steps));
      forall m | m in r.value
        ensures exists i :: 0 <= i < |c.texts| && m.textTitle == c.texts[i].title
                                               && m.filename == ToOption(c.texts[i].filename)
      {
        FlattenMember(Values(steps), m);
        var i :| 0 <= i < |steps| && m in Values(steps)[i];
        TextResultsSpec(c.texts[i], query, whole);
      }
    }
    if r.Err? {
      ConcatErr(steps);
      var i :| 0 <= i < |steps| && steps[i] == r && AllOk(steps[..i]);
      forall j | 0 <= j < i ensures TextResults(c.texts[j], query, whole).Ok? {
        assert steps[..i][j] == steps[j];
      }
    }
  }
}
