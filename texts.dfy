/** `Text` (cortex.py:134-175): a document's base-language sentences, each given
    the translations that share its paragraph id, and the search over them. */
module Texts {
  import opened PyValues
  import opened Accumulate
  import opened Records
  import opened SentenceSearch

  /** A parsed text document: its top-level keys, and its `sentences` list of
      sentence objects when the key is present. */
  datatype DocumentRecord = DocumentRecord(fields: Object, sentences: Option<seq<SentenceRecord>>)

  /** The parts of a `Text` the search reads: `filename` is `meta["filename"]`
      as it stands (possibly `null`), `title` is `None` when absent. */
  datatype Text = Text(meta: Json, filename: Json, title: Option<Json>, langs: set<Json>, sentences: seq<Sentence>)

  predicate HasLangs(recs: seq<SentenceRecord>) {
    forall i :: 0 <= i < |recs| ==> "lang" in recs[i].fields
  }

  function Lang(rec: SentenceRecord): Json
    requires "lang" in rec.fields
  {
    rec.fields["lang"]
  }

  /** `a["lang"] == 0`: the entry is in the base language (`False` counts too). */
  predicate IsBase(rec: SentenceRecord)
    requires "lang" in rec.fields
  {
    PyEq(Lang(rec), JInt(0))
  }

  /** `set([a["lang"] for a in sentences])`: the list is built first, so a missing
      `lang` anywhere raises before an unhashable one does. */
  function LangsOf(recs: seq<SentenceRecord>): Result<set<Json>> {
    if !HasLangs(recs) then Err(KeyError(JStr("lang")))
    else if exists i :: 0 <= i < |recs| && !Hashable(Lang(recs[i])) then Err(TypeError)
    else Ok(set i | 0 <= i < |recs| :: Canon(Lang(recs[i])))
  }

  /** `d["para_alignment"][0]["para_id"]`. */
  function ParaId(d: Object): Result<Json> {
    match Item(d, "para_alignment")
    case Err(e) => Err(e)
    case Ok(pa) =>
      match First(pa)
      case Err(e) => Err(e)
      case Ok(p0) => Subscript(p0, "para_id")
  }

  /** One pass of the inner loop over entry b, for base entry a (cortex.py:156-157):
      `b`'s paragraph id is read before `a`'s, `b["text"]` before the store. */
  function TranslationStep(a: SentenceRecord, b: SentenceRecord, m: map<Json, Json>): Result<map<Json, Json>>
    requires "lang" in b.fields
  {
    if IsBase(b) then Ok(m)
    else
      match ParaId(b.fields)
      case Err(e) => Err(e)
      case Ok(pb) =>
        match ParaId(a.fields)
        case Err(e) => Err(e)
        case Ok(pa) =>
          if !PyEq(pb, pa) then Ok(m)
          else
            match Item(b.fields, "text")
            case Err(e) => Err(e)
            case Ok(text) => Ok(m[Canon(Lang(b)) := text])
  }

  /** The translation map of base entry a after the inner loop has run over bs. */
  function TranslationsOf(a: SentenceRecord, bs: seq<SentenceRecord>): Result<map<Json, Json>>
    requires HasLangs(bs)
    decreases |bs|
  {
    if |bs| == 0 then Ok(map[])
    else
      match TranslationsOf(a, bs[..|bs| - 1])
      case Err(e) => Err(e)
      case Ok(m) => TranslationStep(a, bs[|bs| - 1], m)
  }

  /** Entry b feeds the translation map of a: another language, same paragraph id. */
  predicate Partner(a: SentenceRecord, b: SentenceRecord)
    requires "lang" in b.fields
  {
    !IsBase(b) && ParaId(b.fields).Ok? && ParaId(a.fields).Ok? && PyEq(ParaId(b.fields).value, ParaId(a.fields).value)
  }

  /** Visiting entry b while building a's map raises. */
  predicate Breaks(a: SentenceRecord, b: SentenceRecord)
    requires "lang" in b.fields
  {
    !IsBase(b) && (ParaId(b.fields).Err? || ParaId(a.fields).Err? || (Partner(a, b) && "text" !in b.fields))
  }

  function BreakError(a: SentenceRecord, b: SentenceRecord): PyError
    requires "lang" in b.fields && Breaks(a, b)
  {
    if ParaId(b.fields).Err? then ParaId(b.fields).error
    else if ParaId(a.fields).Err? then ParaId(a.fields).error
    else KeyError(JStr("text"))
  }

  /** One pass raises exactly when b breaks a's map, with b's exception. */
  lemma TranslationStepRaises(a: SentenceRecord, b: SentenceRecord, m: map<Json, Json>)
    requires "lang" in b.fields
    ensures TranslationStep(a, b, m).Err? <==> Breaks(a, b)
    ensures TranslationStep(a, b, m).Err? ==> TranslationStep(a, b, m).error == BreakError(a, b)
  {
  }

  /** Building the map raises exactly when some entry breaks it, and then with
      the exception of the first such entry. */
  lemma {:induction false} TranslationsRaise(a: SentenceRecord, bs: seq<SentenceRecord>)
    requires HasLangs(bs)
    ensures TranslationsOf(a, bs).Ok? <==> forall i :: 0 <= i < |bs| ==> !Breaks(a, bs[i])
    ensures TranslationsOf(a, bs).Err? ==>
              exists i :: 0 <= i < |bs| && Breaks(a, bs[i]) && TranslationsOf(a, bs).error == BreakError(a, bs[i])
                          && forall j :: 0 <= j < i ==> !Breaks(a, bs[j])
    decreases |bs|
  {
    if |bs| > 0 {
      var n := |bs| - 1;
      var init := bs[..n];
      assert HasLangs(init);
      TranslationsRaise(a, init);
      if TranslationsOf(a, init).Err? {
        assert TranslationsOf(a, bs) == TranslationsOf(a, init);
        var i :| 0 <= i < n && Breaks(a, init[i]) && TranslationsOf(a, init).error == BreakError(a, init[i])
                 && forall j :: 0 <= j < i ==> !Breaks(a, init[j]);
        assert bs[i] == init[i];
        forall j | 0 <= j < i ensures !Breaks(a, bs[j]) {
          assert bs[j] == init[j];
        }
      } else {
        var m0 := TranslationsOf(a, init).value;
        assert TranslationsOf(a, bs) == TranslationStep(a, bs[n], m0);
        TranslationStepRaises(a, bs[n], m0);
        forall j | 0 <= j < n ensures !Breaks(a, bs[j]) {
          assert bs[j] == init[j];
        }
      }
    }
  }

  /** One pass adds b's language as a key exactly when b is a partner of a. */
  lemma TranslationStepKeys(a: SentenceRecord, b: SentenceRecord, m: map<Json, Json>)
    requires "lang" in b.fields && TranslationStep(a, b, m).Ok?
    ensures forall k :: k in TranslationStep(a, b, m).value <==> k in m || (Partner(a, b) && k == Canon(Lang(b)))
  {
  }

  /** The keys of the map are the languages of a's partners, canonicalised as
      Python hashes them. */
  lemma {:induction false} TranslationsKeys(a: SentenceRecord, bs: seq<SentenceRecord>)
    requires HasLangs(bs) && TranslationsOf(a, bs).Ok?
    ensures forall k :: k in TranslationsOf(a, bs).value <==>
                        exists i :: 0 <= i < |bs| && Partner(a, bs[i]) && Canon(Lang(bs[i])) == k
    decreases |bs|
  {
    if |bs| > 0 {
      var n := |bs| - 1;
      var init := bs[..n];
      assert HasLangs(init);
      var m0 := TranslationsOf(a, init).value;
      assert TranslationsOf(a, bs) == TranslationStep(a, bs[n], m0);
      TranslationsKeys(a, init);
      TranslationStepKeys(a, bs[n], m0);
      var m := TranslationsOf(a, bs).value;
      forall i | 0 <= i < |bs| && Partner(a, bs[i]) ensures Canon(Lang(bs[i])) in m {
        if i < n {
          assert init[i] == bs[i];
        }
      }
      forall k | k in m ensures exists i :: 0 <= i < |bs| && Partner(a, bs[i]) && Canon(Lang(bs[i])) == k {
        if k in m0 {
          var i :| 0 <= i < n && Partner(a, init[i]) && Canon(Lang(init[i])) == k;
          assert init[i] == bs[i];
        }
      }
    }
  }

  /** Each key holds the text of the last partner in that language: later
      entries overwrite earlier ones. */
  lemma {:induction false} TranslationsLastWins(a: SentenceRecord, bs: seq<SentenceRecord>, i: nat)
    requires HasLangs(bs) && TranslationsOf(a, bs).Ok?
    requires i < |bs| && Partner(a, bs[i])
    requires forall j :: i < j < |bs| && Partner(a, bs[j]) ==> !PyEq(Lang(bs[j]), Lang(bs[i]))
    ensures "text" in bs[i].fields && Canon(Lang(bs[i])) in TranslationsOf(a, bs).value
    ensures TranslationsOf(a, bs).value[Canon(Lang(bs[i]))] == bs[i].fields["text"]
    decreases |bs|
  {
    var n := |bs| - 1;
    var init := bs[..n];
    TranslationsRaise(a, bs);
    TranslationsKeys(a, bs);
    if i < n {
      assert init[i] == bs[i];
      forall j | i < j < n && Partner(a, init[j]) ensures !PyEq(Lang(init[j]), Lang(init[i])) {
        assert init[j] == bs[j];
      }
      TranslationsLastWins(a, init, i);
    }
  }

  /** No base-language entry is ever a key: key 0 never appears. */
  lemma TranslationsNoBase(a: SentenceRecord, bs: seq<SentenceRecord>)
    requires HasLangs(bs) && TranslationsOf(a, bs).Ok?
    ensures JInt(0) !in TranslationsOf(a, bs).value
  {
    TranslationsKeys(a, bs);
  }

  /** Once the loop has raised over a prefix of the entries, the rest does not run. */
  lemma {:induction false} TranslationsPrefixErr(a: SentenceRecord, bs: seq<SentenceRecord>, n: nat)
    requires HasLangs(bs) && n <= |bs| && TranslationsOf(a, bs[..n]).Err?
    ensures TranslationsOf(a, bs) == TranslationsOf(a, bs[..n])
    decreases |bs|
  {
    if n < |bs| {
      var init := bs[..|bs| - 1];
      assert init[..n] == bs[..n];
      TranslationsPrefixErr(a, init, n);
    } else {
      assert bs[..n] == bs;
    }
  }

  /** The inner loop of cortex.py:154-157, filling the dict in place. */
  method BuildTranslations(a: SentenceRecord, bs: seq<SentenceRecord>) returns (r: Result<map<Json, Json>>)
    requires HasLangs(bs)
    ensures r == TranslationsOf(a, bs)
  {
    var translations: map<Json, Json> := map[];
    for i := 0 to |bs|
      invariant TranslationsOf(a, bs[..i]) == Ok(translations)
    {
      var b := bs[i];
      assert bs[..i + 1][..i] == bs[..i];
      if !IsBase(b) {
        var pb := ParaId(b.fields);
        if pb.Err? {
          TranslationsPrefixErr(a, bs, i + 1);
          return Err(pb.error);
        }
        var pa := ParaId(a.fields);
        if pa.Err? {
          TranslationsPrefixErr(a, bs, i + 1);
          return Err(pa.error);
        }
        if PyEq(pb.value, pa.value) {
          if "text" !in b.fields {
            TranslationsPrefixErr(a, bs, i + 1);
          return Err(KeyError(JStr("text")));
          }
          translations := translations[Canon(Lang(b)) := b.fields["text"]];
        }
      }
    }
    assert bs[..|bs|] == bs;
    return Ok(translations);
  }

  /** One pass of the outer loop over entry a (cortex.py:152-158). */
  function SentenceStep(a: SentenceRecord, recs: seq<SentenceRecord>): Result<seq<Sentence>>
    requires "lang" in a.fields && HasLangs(recs)
  {
    if !IsBase(a) then Ok([])
    else
      match TranslationsOf(a, recs)
      case Err(e) => Err(e)
      case Ok(tr) =>
        match SentenceOf(a, Some(tr))
        case Err(e) => Err(e)
        case Ok(s) => Ok([s])
  }

  function SentenceSteps(recs: seq<SentenceRecord>): seq<Result<seq<Sentence>>>
    requires HasLangs(recs)
  {
    seq(|recs|, i requires 0 <= i < |recs| => SentenceStep(recs[i], recs))
  }

  /** `Text(filepath)` on an already parsed document. */
  function TextOf(doc: DocumentRecord): Result<Text> {
    match Item(doc.fields, "meta")
    case Err(e) => Err(e)
    case Ok(meta) =>
      match Subscript(meta, "filename")
      case Err(e) => Err(e)
      case Ok(filename) =>
        var title := Get(meta.fields, "title");
        if doc.sentences.None? then Err(KeyError(JStr("sentences")))
        else
          var recs := doc.sentences.value;
          match LangsOf(recs)
          case Err(e) => Err(e)
          case Ok(langs) =>
            match Concat(SentenceSteps(recs))
            case Err(e) => Err(e)
            case Ok(sentences) => Ok(Text(meta, filename, title, langs, sentences))
  }

  /** `set([a["lang"] for a in sentences])` (cortex.py:149). */
  method CollectLangs(recs: seq<SentenceRecord>) returns (r: Result<set<Json>>)
    ensures r == LangsOf(recs)
  {
    // The list comprehension first.
    for i := 0 to |recs|
      invariant HasLangs(recs[..i])
    {
      if "lang" !in recs[i].fields {
        assert !HasLangs(recs);
        return Err(KeyError(JStr("lang")));
      }
    }
    assert recs[..|recs|] == recs;
    // Then `set(...)`.
    var langs: set<Json> := {};
    for i := 0 to |recs|
      invariant forall j :: 0 <= j < i ==> Hashable(Lang(recs[j]))
      invariant langs == set j | 0 <= j < i :: Canon(Lang(recs[j]))
    {
      if !Hashable(Lang(recs[i])) {
        return Err(TypeError);
      }
      langs := langs + {Canon(Lang(recs[i]))};
    }
    return Ok(langs);
  }

  /** The outer loop of cortex.py:152-158 over the entries. */
  method CollectSentences(recs: seq<SentenceRecord>) returns (r: Result<seq<Sentence>>)
    requires HasLangs(recs)
    ensures r == Concat(SentenceSteps(recs))
  {
    ghost var steps := SentenceSteps(recs);
    var sentences: seq<Sentence> := [];
    for i := 0 to |recs|
      invariant Concat(steps[..i]) == Ok(sentences)
    {
      var a := recs[i];
      ConcatStep(steps, i);
      assert steps[i] == SentenceStep(a, recs);
      if IsBase(a) {
        var translations := BuildTranslations(a, recs);
        if translations.Err? {
          ConcatPrefixErr(steps, i + 1);
          return Err(translations.error);
        }
        var s := SentenceOf(a, Some(translations.value));
        if s.Err? {
          ConcatPrefixErr(steps, i + 1);
          return Err(s.error);
        }
        sentences := sentences + [s.value];
      } else {
        assert sentences + [] == sentences;
      }
    }
    assert steps[..|steps|] == steps;
    return Ok(sentences);
  }

  /** `Text.__init__` from the parsed document on. */
  method BuildText(doc: DocumentRecord) returns (r: Result<Text>)
    ensures r == TextOf(doc)
  {
    if "meta" !in doc.fields {
      return Err(KeyError(JStr("meta")));
    }
    var meta := doc.fields["meta"];
    var filename := Subscript(meta, "filename");
    if filename.Err? {
      return Err(filename.error);
    }
    var title := Get(meta.fields, "title");
    if doc.sentences.None? {
      return Err(KeyError(JStr("sentences")));
    }
    var recs := doc.sentences.value;
    var langs := CollectLangs(recs);
    if langs.Err? {
      return Err(langs.error);
    }
    var sentences := CollectSentences(recs);
    if sentences.Err? {
      return Err(sentences.error);
    }
    return Ok(Text(meta, filename.value, title, langs.value, sentences.value));
  }

  /** The indices of the base-language entries, in document order. */
  function BaseIndices(recs: seq<SentenceRecord>): seq<nat>
    requires HasLangs(recs)
    decreases |recs|
  {
    if |recs| == 0 then []
    else
      var n := |recs| - 1;
      BaseIndices(recs[..n]) + (if IsBase(recs[n]) then [n] else [])
  }

  /** The base indices are the `lang == 0` entries, in increasing order. */
  lemma {:induction false} BaseIndicesFacts(recs: seq<SentenceRecord>)
    requires HasLangs(recs)
    ensures forall i :: i in BaseIndices(recs) <==> 0 <= i < |recs| && IsBase(recs[i])
    ensures forall k, l :: 0 <= k < l < |BaseIndices(recs)| ==> BaseIndices(recs)[k] < BaseIndices(recs)[l]
    decreases |recs|
  {
    if |recs| > 0 {
      var n := |recs| - 1;
      var init := recs[..n];
      BaseIndicesFacts(init);
      forall i ensures i in BaseIndices(recs) <==> 0 <= i < |recs| && IsBase(recs[i]) {
        if 0 <= i < n {
          assert init[i] == recs[i];
        }
      }
      var bs := BaseIndices(init);
      forall k | 0 <= k < |bs| ensures bs[k] < n {
        assert bs[k] in bs;
      }
    }
  }

  lemma {:induction false} BaseIndicesAreSingles(recs: seq<SentenceRecord>, n: nat)
    requires HasLangs(recs) && n <= |recs| && AllOk(SentenceSteps(recs)[..n])
    ensures BaseIndices(recs[..n]) == Singles(SentenceSteps(recs)[..n])
    decreases n
  {
    var steps := SentenceSteps(recs);
    if n > 0 {
      var m := n - 1;
      assert steps[..n][..m] == steps[..m];
      assert recs[..n][..m] == recs[..m];
      BaseIndicesAreSingles(recs, m);
      assert BaseIndices(recs[..n]) == BaseIndices(recs[..m]) + (if IsBase(recs[m]) then [m] else []);
      assert Singles(steps[..n]) == Singles(steps[..m]) + (if steps[m].Ok? && |steps[m].value| == 1 then [m] else []);
      assert steps[m] == steps[..n][m] == SentenceStep(recs[m], recs);
    }
  }

  /** Loop results that succeed: sentence k comes from the k-th base entry, built
      with that entry's translation map. */
  lemma SentencesAreBases(recs: seq<SentenceRecord>, sentences: seq<Sentence>)
    requires HasLangs(recs) && Concat(SentenceSteps(recs)) == Ok(sentences)
    ensures var bases := BaseIndices(recs);
            && |sentences| == |bases|
            && forall k :: 0 <= k < |bases| ==>
                 bases[k] < |recs| && TranslationsOf(recs[bases[k]], recs).Ok?
                 && SentenceOf(recs[bases[k]], Some(TranslationsOf(recs[bases[k]], recs).value)) == Ok(sentences[k])
  {
    var steps := SentenceSteps(recs);
    ConcatOk(steps);
    forall i | 0 <= i < |steps| ensures |steps[i].value| <= 1 {
      assert steps[i] == SentenceStep(recs[i], recs);
    }
    assert steps[..|steps|] == steps;
    assert recs[..|recs|] == recs;
    BaseIndicesAreSingles(recs, |recs|);
    ConcatSingles(steps);
    var bases := BaseIndices(recs);
    forall k | 0 <= k < |bases|
      ensures TranslationsOf(recs[bases[k]], recs).Ok?
      ensures SentenceOf(recs[bases[k]], Some(TranslationsOf(recs[bases[k]], recs).value)) == Ok(sentences[k])
    {
      assert steps[bases[k]] == SentenceStep(recs[bases[k]], recs);
    }
  }

  /** A document that builds: its sentences are exactly its `lang == 0` entries,
      in document order, each with the translation map of its partners. */
  lemma TextSentences(doc: DocumentRecord)
    requires TextOf(doc).Ok?
    ensures doc.sentences.Some? && HasLangs(doc.sentences.value)
    ensures var recs := doc.sentences.value;
            var t := TextOf(doc).value;
            var bases := BaseIndices(recs);
            && SentenceCount(t) == |t.sentences| == |bases|
            && (forall i :: i in bases <==> 0 <= i < |recs| && IsBase(recs[i]))
            && (forall k, l :: 0 <= k < l < |bases| ==> bases[k] < bases[l])
            && forall k :: 0 <= k < |bases| ==>
                 bases[k] < |recs| && TranslationsOf(recs[bases[k]], recs).Ok?
                 && SentenceOf(recs[bases[k]], Some(TranslationsOf(recs[bases[k]], recs).value)) == Ok(t.sentences[k])
  {
    var recs := doc.sentences.value;
    assert Concat(SentenceSteps(recs)) == Ok(TextOf(doc).value.sentences);
    BaseIndicesFacts(recs);
    SentencesAreBases(recs, TextOf(doc).value.sentences);
  }

  /** `langs` holds the language of every entry, canonicalised as Python hashes it. */
  lemma TextLangs(doc: DocumentRecord)
    requires TextOf(doc).Ok?
    ensures doc.sentences.Some? && HasLangs(doc.sentences.value)
    ensures var recs := doc.sentences.value;
            forall v :: v in TextOf(doc).value.langs <==> exists i :: 0 <= i < |recs| && Canon(Lang(recs[i])) == v
  {
  }

  /** `len(text)`. */
  function SentenceCount(t: Text): nat {
    |t.sentences|
  }

  // ------------------------------------------------------------------
  // `Text.search_gloss` (cortex.py:169-175).

  function TextSteps(t: Text, query: Query, whole: bool): seq<Result<seq<Match>>>
    requires QueriesPlain(Glosses(query))
  {
    seq(|t.sentences|, i requires 0 <= i < |t.sentences| =>
      SearchResults(t.sentences[i], query, whole, t.title, ToOption(t.filename)))
  }

  function TextResults(t: Text, query: Query, whole: bool): Result<seq<Match>>
    requires QueriesPlain(Glosses(query))
  {
    Concat(TextSteps(t, query, whole))
  }

  method SearchText(t: Text, query: Query, whole: bool) returns (r: Result<seq<Match>>)
    requires QueriesPlain(Glosses(query))
    ensures r == TextResults(t, query, whole)
  {
    ghost var steps := TextSteps(t, query, whole);
    var results: seq<Match> := [];
    for iSent := 0 to |t.sentences|
      invariant Concat(steps[..iSent]) == Ok(results)
    {
      var res := SearchGloss(t.sentences[iSent], query, whole, t.title, ToOption(t.filename));
      assert steps[iSent] == res;
      ConcatStep(steps, iSent);
      if res.Err? {
        ConcatPrefixErr(steps, iSent + 1);
        return res;
      }
      results := results + res.value;
    }
    assert steps[..|steps|] == steps;
    return Ok(results);
  }

  /** The text's results are its sentences' results one after the other, so
      their number is the sum of theirs, and each record carries the text's own
      title and filename; the first sentence that raises aborts the search. */
  lemma TextResultsSpec(t: Text, query: Query, whole: bool)
    requires QueriesPlain(Glosses(query))
    ensures var steps := TextSteps(t, query, whole);
            && (TextResults(t, query, whole).Ok? <==> AllOk(steps))
            && (AllOk(steps) ==> && TextResults(t, query, whole).value == Flatten(Values(steps))
                                 && |TextResults(t, query, whole).value| == SumLengths(Values(steps)))
    ensures TextResults(t, query, whole).Err? ==>
              exists i :: 0 <= i < |t.sentences|
                          && SearchResults(t.sentences[i], query, whole, t.title, ToOption(t.filename))
                             == TextResults(t, query, whole)
                          && forall j :: 0 <= j < i ==>
                               SearchResults(t.sentences[j], query, whole, t.title, ToOption(t.filename)).Ok?
    ensures TextResults(t, query, whole).Ok? ==>
              forall m :: m in TextResults(t, query, whole).value ==>
                m.textTitle == t.title && m.filename == ToOption(t.filename)
  {
    var steps := TextSteps(t, query, whole);
    var r := TextResults(t, query, whole);
    ConcatOk(steps);
    if AllOk(steps) {
      FlattenLength(Values(steps));
      forall m | m in r.value ensures m.textTitle == t.title && m.filename == ToOption(t.filename) {
        FlattenMember(Values(steps), m);
        var i :| 0 <= i < |steps| && m in Values(steps)[i];
        var s := t.sentences[i];
        SearchOrder(s, query, whole, t.title, ToOption(t.filename));
        var rs := SearchResults(s, query, whole, t.title, ToOption(t.filename)).value;
        var k :| 0 <= k < |rs| && rs[k] == m;
      }
    }
    if r.Err? {
      ConcatErr(steps);
      var i :| 0 <= i < |steps| && steps[i] == r && AllOk(steps[..i]);
      forall j | 0 <= j < i
        ensures SearchResults(t.sentences[j], query, whole, t.title, ToOption(t.filename)).Ok?
      {
        assert steps[..i][j] == steps[j];
      }
    }
  }
}
