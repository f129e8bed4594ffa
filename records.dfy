/** The passive records of cortex.py: `Analysis`, `Token` and `Sentence` as their
    constructors build them from parsed JSON objects (cortex.py:6-82). */
module Records {
  import opened PyValues
  import opened Accumulate

  /** One morphological reading of a token. `None` is a field that was absent (or
      JSON `null`); it is never confused with an empty list. */
  datatype Analysis = Analysis(
    gloss: Option<Json>,
    parts: Option<Json>,
    grpos: Option<Json>,
    lex: Option<Json>,
    transEn: Option<Json>,
    glossIndex: Option<Json>)

  /** A word object of the input: its keys, and its `ana` list of analysis objects when the key is present. */
  datatype WordRecord = WordRecord(fields: Object, ana: Option<seq<Object>>)

  datatype Token = Token(
    wf: Json,
    offStart: Json,
    offEnd: Json,
    wtype: Option<Json>,
    nextWord: Option<Json>,
    sentenceIndex: Option<Json>,
    sentenceIndexNeg: Option<Json>,
    ana: Option<seq<Analysis>>)

  /** A sentence object of the input: its keys, and its `words` list of word objects when the key is present. */
  datatype SentenceRecord = SentenceRecord(fields: Object, words: Option<seq<WordRecord>>)

  /** `translations` is `None` unless the sentence was built by a `Text`; its keys
      are language codes as Python hashes them (see `Canon`). */
  datatype Sentence = Sentence(
    text: Json,
    words: seq<Token>,
    lang: Option<Json>,
    meta: Option<Json>,
    paraAlignment: Option<Json>,
    srcAlignment: Option<Json>,
    translations: Option<map<Json, Json>>)

  /** A list-valued field: a lone string is wrapped in a one-element list, an
      absent key (or `null`) is `None`, any other value is kept as it is. */
  function ListField(d: Object, k: string): Option<Json> {
    if k in d && d[k].JStr? then Some(JArr([d[k]])) else Get(d, k)
  }

  function AnalysisOf(d: Object): (a: Analysis)
    ensures a.gloss == Get(d, "gloss") && a.parts == Get(d, "parts") && a.glossIndex == Get(d, "gloss_index")
    ensures forall k :: k in {"gr.pos", "lex", "trans_en"} ==>
              var v := if k == "gr.pos" then a.grpos else if k == "lex" then a.lex else a.transEn;
              && (k !in d ==> v == None)
              && (k in d && d[k].JStr? ==> v == Some(JArr([d[k]])))
              && (k in d && !d[k].JStr? && d[k] != JNull ==> v == Some(d[k]))
              && (k in d && d[k] == JNull ==> v == None)
  {
    Analysis(Get(d, "gloss"), Get(d, "parts"), ListField(d, "gr.pos"), ListField(d, "lex"),
             ListField(d, "trans_en"), Get(d, "gloss_index"))
  }

  function AnalysesOf(ds: seq<Object>): (r: seq<Analysis>)
    ensures |r| == |ds| && forall i :: 0 <= i < |ds| ==> r[i] == AnalysisOf(ds[i])
  {
    seq(|ds|, i requires 0 <= i < |ds| => AnalysisOf(ds[i]))
  }

  function TokenOf(w: WordRecord): (r: Result<Token>)
    ensures r.Ok? <==> "wf" in w.fields && "off_start" in w.fields && "off_end" in w.fields
    ensures r.Err? ==> r.error == KeyError(JStr(if "wf" !in w.fields then "wf"
                                                else if "off_start" !in w.fields then "off_start" else "off_end"))
    ensures r.Ok? ==> && r.value.wf == w.fields["wf"]
                      && r.value.offStart == w.fields["off_start"]
                      && r.value.offEnd == w.fields["off_end"]
    ensures r.Ok? ==> && r.value.wtype == Get(w.fields, "wtype")
                      && r.value.nextWord == Get(w.fields, "next_word")
                      && r.value.sentenceIndex == Get(w.fields, "sentence_index")
                      && r.value.sentenceIndexNeg == Get(w.fields, "sentence_index_neg")
    ensures r.Ok? ==> && (w.ana.None? <==> r.value.ana.None?)
                      && (w.ana.Some? ==> |r.value.ana.value| == |w.ana.value|
                                          && forall i :: 0 <= i < |w.ana.value| ==> r.value.ana.value[i] == AnalysisOf(w.ana.value[i]))
  {
    match Item(w.fields, "wf")
    case Err(e) => Err(e)
    case Ok(wf) =>
      match Item(w.fields, "off_start")
      case Err(e) => Err(e)
      case Ok(offStart) =>
        match Item(w.fields, "off_end")
        case Err(e) => Err(e)
        case Ok(offEnd) =>
          var ana := if w.ana.Some? then Some(AnalysesOf(w.ana.value)) else None;
          Ok(Token(wf, offStart, offEnd, Get(w.fields, "wtype"), Get(w.fields, "next_word"),
                   Get(w.fields, "sentence_index"), Get(w.fields, "sentence_index_neg"), ana))
  }

  /** `[Token(a) for a in words]`: the first word that cannot be built aborts the list. */
  function TokensOf(ws: seq<WordRecord>): (r: Result<seq<Token>>)
    ensures r.Ok? <==> forall i :: 0 <= i < |ws| ==> TokenOf(ws[i]).Ok?
    ensures r.Ok? ==> |r.value| == |ws| && forall i :: 0 <= i < |ws| ==> TokenOf(ws[i]) == Ok(r.value[i])
    ensures r.Err? ==> exists i :: 0 <= i < |ws| && TokenOf(ws[i]) == Err(r.error)
                                   && forall j :: 0 <= j < i ==> TokenOf(ws[j]).Ok?
  {
    TryMap(TokenOf, ws)
  }

  /** `json_dict["para_alignment"][0]` when the key is present. */
  function ParaAlignmentOf(d: Object): Result<Option<Json>> {
    if "para_alignment" in d then
      match First(d["para_alignment"])
      case Err(e) => Err(e)
      case Ok(v) => Ok(ToOption(v))
    else Ok(None)
  }

  /** `Sentence(json_dict, translations)`. */
  function SentenceOf(rec: SentenceRecord, translations: Option<map<Json, Json>>): (r: Result<Sentence>)
    ensures r.Ok? <==> && "text" in rec.fields && rec.words.Some?
                       && TokensOf(rec.words.value).Ok? && ParaAlignmentOf(rec.fields).Ok?
    ensures r.Err? && "text" !in rec.fields ==> r.error == KeyError(JStr("text"))
    ensures r.Err? && "text" in rec.fields && rec.words.None? ==> r.error == KeyError(JStr("words"))
    ensures r.Err? && "text" in rec.fields && rec.words.Some? ==>
              r.error == if TokensOf(rec.words.value).Err? then TokensOf(rec.words.value).error
                         else ParaAlignmentOf(rec.fields).error
    ensures r.Ok? ==> && r.value.text == rec.fields["text"]
                      && |r.value.words| == |rec.words.value|
                      && (forall i :: 0 <= i < |rec.words.value| ==> TokenOf(rec.words.value[i]) == Ok(r.value.words[i]))
                      && r.value.lang == Get(rec.fields, "lang")
                      && r.value.meta == Get(rec.fields, "meta")
                      && r.value.srcAlignment == Get(rec.fields, "src_alignment")
                      && r.value.paraAlignment == ParaAlignmentOf(rec.fields).value
                      && r.value.translations == translations
  {
    match Item(rec.fields, "text")
    case Err(e) => Err(e)
    case Ok(text) =>
      if rec.words.None? then Err(KeyError(JStr("words")))
      else
        match TokensOf(rec.words.value)
        case Err(e) => Err(e)
        case Ok(words) =>
          match ParaAlignmentOf(rec.fields)
          case Err(e) => Err(e)
          case Ok(pa) =>
            Ok(Sentence(text, words, Get(rec.fields, "lang"), Get(rec.fields, "meta"), pa,
                        Get(rec.fields, "src_alignment"), translations))
  }

  /** `len(sentence)`. */
  function WordCount(s: Sentence): nat {
    |s.words|
  }

  /** A list-valued field written as a lone string reads the same as the one-element list holding it. */
  lemma StringIsOneElementList(d: Object, k: string, s: string)
    requires k in {"gr.pos", "lex", "trans_en"}
    ensures var a1 := AnalysisOf(d[k := JStr(s)]);
            var a2 := AnalysisOf(d[k := JArr([JStr(s)])]);
            a1 == a2
  {
  }

  /** An absent list-valued field and an empty list stay distinguishable. */
  lemma AbsentIsNotEmpty(d: Object)
    requires "lex" !in d
    ensures AnalysisOf(d).lex != AnalysisOf(d["lex" := JArr([])]).lex
  {
  }

  /** `len(sentence)` is the number of word objects it was built from. */
  lemma SentenceLength(rec: SentenceRecord, translations: Option<map<Json, Json>>)
    requires SentenceOf(rec, translations).Ok?
    ensures rec.words.Some? && WordCount(SentenceOf(rec, translations).value) == |rec.words.value|
  {
  }
}
