/** `Sentence.search_gloss` (cortex.py:84-131): for each query gloss, each token
    and each analysis of the token, the gloss pattern is searched in the
    analysis's gloss string, and every hit becomes one result record. */
module SentenceSearch {
  import opened PyValues
  import opened Accumulate
  import opened GlossRegex
  import opened Records

  /** The `glosses` argument: a bare string, or a list of query glosses. */
  datatype Query = One(gloss: string) | Many(glosses: seq<string>)

  /** A bare string is searched as the one-element tuple holding it. */
  function Glosses(query: Query): seq<string> {
    match query
    case One(g) => [g]
    case Many(gs) => gs
  }

  predicate QueriesPlain(qs: seq<string>) {
    forall i :: 0 <= i < |qs| ==> PlainQuery(qs[i])
  }

  /** One result record: the dict of cortex.py:115-130, `match` spelt `matched`. */
  datatype Match = Match(
    matched: string,
    gloss: string,
    wf: Option<Json>,
    spanA: nat,
    spanB: nat,
    iToken: nat,
    offStart: Json,
    offEnd: Json,
    sentence: Json,
    translation: Json,
    iSentence: Json,
    textTitle: Option<Json>,
    filename: Option<Json>)

  /** `self.translations[1]` under `except IndexError`: a sentence built without
      translations raises `TypeError`, and a dict without key 1 raises
      `KeyError`, which the handler does not catch. */
  function Translation(s: Sentence): (r: Result<Json>)
    ensures s.translations.None? ==> r == Err(TypeError)
    ensures s.translations.Some? ==> (r.Ok? <==> JInt(1) in s.translations.value)
    ensures s.translations.Some? && r.Ok? ==> r.value == s.translations.value[JInt(1)]
    ensures s.translations.Some? && r.Err? ==> r.error == KeyError(JInt(1))
  {
    match s.translations
    case None => Err(TypeError)
    case Some(m) => if JInt(1) in m then Ok(m[JInt(1)]) else Err(KeyError(JInt(1)))
  }

  /** `self.para_alignment["para_id"]`. */
  function SentenceId(s: Sentence): (r: Result<Json>)
    ensures s.paraAlignment.None? ==> r == Err(TypeError)
    ensures s.paraAlignment.Some? && !s.paraAlignment.value.JObj? ==> r == Err(TypeError)
    ensures s.paraAlignment.Some? && s.paraAlignment.value.JObj? ==>
              if "para_id" in s.paraAlignment.value.fields then r == Ok(s.paraAlignment.value.fields["para_id"])
              else r == Err(KeyError(JStr("para_id")))
  {
    match s.paraAlignment
    case None => Err(TypeError)
    case Some(p) => Subscript(p, "para_id")
  }

  /** The query matches this analysis: its gloss is a string the pattern is found in. */
  predicate HitOn(q: string, whole: bool, a: Analysis)
    requires PlainQuery(q)
  {
    a.gloss.Some? && a.gloss.value.JStr? && Search(q, a.gloss.value.s, whole).Some?
  }

  /** The record built for a hit on analysis `a` of token t. */
  ghost predicate RecordFor(s: Sentence, q: string, whole: bool, title: Option<Json>, fn: Option<Json>,
                            t: nat, a: Analysis, m: Match)
    requires PlainQuery(q)
  {
    && t < |s.words|
    && a.gloss == Some(JStr(m.gloss))
    && Search(q, m.gloss, whole) == Some(Span(m.spanA, m.spanB))
    && m.spanA <= m.spanB <= |m.gloss|
    && m.matched == m.gloss[m.spanA..m.spanB]
    && m.wf == a.parts
    && m.iToken == t
    && m.offStart == s.words[t].offStart && m.offEnd == s.words[t].offEnd
    && m.sentence == s.text
    && Translation(s) == Ok(m.translation)
    && SentenceId(s) == Ok(m.iSentence)
    && m.textTitle == title && m.filename == fn
  }

  /** The body of the innermost loop (cortex.py:102-130) for analysis `a` of token t. */
  function AnalysisStep(s: Sentence, q: string, whole: bool, title: Option<Json>, fn: Option<Json>,
                        t: nat, a: Analysis): (r: Result<seq<Match>>)
    requires PlainQuery(q) && t < |s.words|
    ensures r.Ok? ==> |r.value| <= 1
    ensures r.Ok? && |r.value| == 1 <==> HitOn(q, whole, a) && Translation(s).Ok? && SentenceId(s).Ok?
    ensures r.Err? <==> (a.gloss.Some? && !a.gloss.value.JStr?)
                        || (HitOn(q, whole, a) && (Translation(s).Err? || SentenceId(s).Err?))
    ensures a.gloss.Some? && !a.gloss.value.JStr? ==> r == Err(TypeError)
    ensures r.Err? && a.gloss.Some? && a.gloss.value.JStr? ==>
              r.error == (if Translation(s).Err? then Translation(s).error else SentenceId(s).error)
    ensures r.Ok? && |r.value| == 1 ==> RecordFor(s, q, whole, title, fn, t, a, r.value[0])
  {
    match a.gloss
    case None => Ok([])
    case Some(g) =>
      if !g.JStr? then Err(TypeError)
      else
        match Search(q, g.s, whole)
        case None => Ok([])
        case Some(span) =>
          match Translation(s)
          case Err(e) => Err(e)
          case Ok(translation) =>
            match SentenceId(s)
            case Err(e) => Err(e)
            case Ok(id) =>
              Ok([Match(g.s[span.start..span.end], g.s, a.parts, span.start, span.end, t,
                        s.words[t].offStart, s.words[t].offEnd, s.text, translation, id, title, fn)])
  }

  /** The steps of the analysis loop over token t; none when `ana` is `None`. */
  function TokenSteps(s: Sentence, q: string, whole: bool, title: Option<Json>, fn: Option<Json>, t: nat)
    : seq<Result<seq<Match>>>
    requires PlainQuery(q) && t < |s.words|
  {
    match s.words[t].ana
    case None => []
    case Some(ana) => seq(|ana|, j requires 0 <= j < |ana| => AnalysisStep(s, q, whole, title, fn, t, ana[j]))
  }

  /** The steps of the token loop for one query gloss. */
  function QuerySteps(s: Sentence, q: string, whole: bool, title: Option<Json>, fn: Option<Json>)
    : seq<Result<seq<Match>>>
    requires PlainQuery(q)
  {
    seq(|s.words|, t requires 0 <= t < |s.words| => Concat(TokenSteps(s, q, whole, title, fn, t)))
  }

  /** The steps of the query loop. */
  function SentenceSteps(s: Sentence, qs: seq<string>, whole: bool, title: Option<Json>, fn: Option<Json>)
    : seq<Result<seq<Match>>>
    requires QueriesPlain(qs)
  {
    seq(|qs|, i requires 0 <= i < |qs| => Concat(QuerySteps(s, qs[i], whole, title, fn)))
  }

  /** What `search_gloss` returns, or the exception it raises. */
  function SearchResults(s: Sentence, query: Query, whole: bool, title: Option<Json>, fn: Option<Json>)
    : Result<seq<Match>>
    requires QueriesPlain(Glosses(query))
  {
    Concat(SentenceSteps(s, Glosses(query), whole, title, fn))
  }

  /** When step j of a loop raises, the loop's whole result is that exception. */
  lemma StepRaises(steps: seq<Result<seq<Match>>>, j: nat, e: PyError)
    requires j < |steps| && Concat(steps[..j]).Ok? && steps[j] == Err(e)
    ensures Concat(steps) == Err(e)
  {
    assert steps[..j + 1][..j] == steps[..j];
    ConcatPrefixErr(steps, j + 1);
  }

  /** A loop step appended to an accumulator that has not raised. */
  lemma StepOk(steps: seq<Result<seq<Match>>>, j: nat)
    requires j < |steps| && Concat(steps[..j]).Ok? && steps[j].Ok?
    ensures Concat(steps[..j + 1]) == Ok(Concat(steps[..j]).value + steps[j].value)
  {
    assert steps[..j + 1][..j] == steps[..j];
  }

  /** The body of the innermost loop of `search_gloss` for analysis `a` of token t. */
  method ScanAnalysis(s: Sentence, gloss: string, whole: bool, textTitle: Option<Json>, filename: Option<Json>,
                      iToken: nat, a: Analysis)
    returns (r: Result<seq<Match>>)
    requires PlainQuery(gloss) && iToken < |s.words|
    ensures r == AnalysisStep(s, gloss, whole, textTitle, filename, iToken, a)
  {
    if a.gloss.None? {
      return Ok([]);
    }
    if !a.gloss.value.JStr? {
      return Err(TypeError);
    }
    var g := a.gloss.value.s;
    var query := Search(gloss, g, whole);
    if query.None? {
      return Ok([]);
    }
    var translation;
    match s.translations {
      case None =>
        return Err(TypeError);
      case Some(m) =>
        if JInt(1) !in m {
          return Err(KeyError(JInt(1)));
        }
        translation := m[JInt(1)];
    }
    var id := SentenceId(s);
    if id.Err? {
      return Err(id.error);
    }
    var record := Match(g[query.value.start..query.value.end], g, a.parts,
                        query.value.start, query.value.end, iToken,
                        s.words[iToken].offStart, s.words[iToken].offEnd, s.text,
                        translation, id.value, textTitle, filename);
    return Ok([record]);
  }

  /** The analysis loop of `search_gloss` over token t (cortex.py:100-130). */
  method ScanToken(s: Sentence, gloss: string, whole: bool, textTitle: Option<Json>, filename: Option<Json>,
                   iToken: nat)
    returns (r: Result<seq<Match>>)
    requires PlainQuery(gloss) && iToken < |s.words|
    ensures r == Concat(TokenSteps(s, gloss, whole, textTitle, filename, iToken))
  {
    var ana := s.words[iToken].ana;
    ghost var steps := TokenSteps(s, gloss, whole, textTitle, filename, iToken);
    var results: seq<Match> := [];
    if ana.None? || |ana.value| == 0 {
      return Ok([]);
    }
    for iAna := 0 to |ana.value|
      invariant Concat(steps[..iAna]) == Ok(results)
    {
      var step := ScanAnalysis(s, gloss, whole, textTitle, filename, iToken, ana.value[iAna]);
      if step.Err? {
        StepRaises(steps, iAna, step.error);
        return step;
      }
      StepOk(steps, iAna);
      results := results + step.value;
    }
    assert steps[..|steps|] == steps;
    return Ok(results);
  }

  /** The token loop of `search_gloss` for one query gloss (cortex.py:98-130). */
  method ScanTokens(s: Sentence, gloss: string, whole: bool, textTitle: Option<Json>, filename: Option<Json>)
    returns (r: Result<seq<Match>>)
    requires PlainQuery(gloss)
    ensures r == Concat(QuerySteps(s, gloss, whole, textTitle, filename))
  {
    ghost var steps := QuerySteps(s, gloss, whole, textTitle, filename);
    var results: seq<Match> := [];
    for iToken := 0 to |s.words|
      invariant Concat(steps[..iToken]) == Ok(results)
    {
      var step := ScanToken(s, gloss, whole, textTitle, filename, iToken);
      if step.Err? {
        StepRaises(steps, iToken, step.error);
        return step;
      }
      StepOk(steps, iToken);
      results := results + step.value;
    }
    assert steps[..|steps|] == steps;
    return Ok(results);
  }

  /** `Sentence.search_gloss`: the query loop (cortex.py:84-131); an exception
      raised by any step leaves the method. */
  method SearchGloss(s: Sentence, glosses: Query, whole: bool, textTitle: Option<Json>, filename: Option<Json>)
    returns (r: Result<seq<Match>>)
    requires QueriesPlain(Glosses(glosses))
    ensures r == SearchResults(s, glosses, whole, textTitle, filename)
  {
    var qs := Glosses(glosses);
    ghost var steps := SentenceSteps(s, qs, whole, textTitle, filename);
    var results: seq<Match> := [];
    for qi := 0 to |qs|
      invariant Concat(steps[..qi]) == Ok(results)
    {
      var step := ScanTokens(s, qs[qi], whole, textTitle, filename);
      if step.Err? {
        StepRaises(steps, qi, step.error);
        return step;
      }
      StepOk(steps, qi);
      results := results + step.value;
    }
    assert steps[..|steps|] == steps;
    return Ok(results);
  }

  /** The record a hit on analysis `a` of token t holds, read against the query:
      in whole mode the match is the leftmost delimited occurrence of the
      pattern, exactly as long as the query (the query itself when it is a
      literal); otherwise the match contains the pattern and stretches only over
      in-segment characters around it. */
  lemma RecordMeaning(s: Sentence, q: string, whole: bool, title: Option<Json>, fn: Option<Json>,
                      t: nat, a: Analysis, m: Match)
    requires PlainQuery(q) && t < |s.words|
    requires AnalysisStep(s, q, whole, title, fn, t, a) == Ok([m])
    ensures a.gloss == Some(JStr(m.gloss)) && m.spanA <= m.spanB <= |m.gloss|
    ensures m.matched == m.gloss[m.spanA..m.spanB]
    ensures s.translations.Some? && JInt(1) in s.translations.value
            && m.translation == s.translations.value[JInt(1)]
    ensures whole ==> && m.spanB == m.spanA + |q| && WholeAt(q, m.gloss, m.spanA)
                      && forall i: nat :: i < m.spanA ==> !WholeAt(q, m.gloss, i)
    ensures whole && Literal(q) ==> m.matched == q
    ensures !whole ==> exists k: nat :: m.spanA <= k && k + |q| <= m.spanB && PatternAt(q, m.gloss, k)
    ensures !whole && Literal(q) ==> forall i :: 0 <= i < |m.matched| ==> InSegment(m.matched[i])
  {
    var g := m.gloss;
    if whole {
      WholeSearch(q, g);
      if Literal(q) {
        LiteralPatternAt(q, g, m.spanA);
      }
    } else {
      PartialMatchText(q, g);
      if Literal(q) {
        forall i | 0 <= i < |m.matched| ensures InSegment(m.matched[i]) {
          assert m.matched[i] == g[m.spanA + i];
        }
      }
    }
  }

  // ------------------------------------------------------------------
  // The three loops read as one loop over (query, token, analysis) positions.

  /** Analysis j of token t, searched for query gloss number q. */
  datatype Pos = Pos(q: nat, t: nat, j: nat)

  predicate IsPos(s: Sentence, n: nat, p: Pos) {
    p.q < n && p.t < |s.words| && s.words[p.t].ana.Some? && p.j < |s.words[p.t].ana.value|
  }

  /** The order the nested loops visit positions in. */
  predicate LexLess(x: Pos, y: Pos) {
    x.q < y.q || (x.q == y.q && (x.t < y.t || (x.t == y.t && x.j < y.j)))
  }

  function TokenPositions(s: Sentence, qi: nat, t: nat): seq<Pos>
    requires t < |s.words|
  {
    match s.words[t].ana
    case None => []
    case Some(ana) => seq(|ana|, j requires 0 <= j < |ana| => Pos(qi, t, j))
  }

  function QueryPositions(s: Sentence, qi: nat): seq<Pos> {
    Flatten(seq(|s.words|, t requires 0 <= t < |s.words| => TokenPositions(s, qi, t)))
  }

  /** Every position the loops visit, for n query glosses, in visiting order. */
  function Positions(s: Sentence, n: nat): seq<Pos> {
    Flatten(seq(n, qi requires 0 <= qi < n => QueryPositions(s, qi)))
  }

  function AnalysisAt(s: Sentence, p: Pos): Analysis
    requires p.t < |s.words| && s.words[p.t].ana.Some? && p.j < |s.words[p.t].ana.value|
  {
    s.words[p.t].ana.value[p.j]
  }

  /** What the loops do at position p. */
  function StepAt(s: Sentence, qs: seq<string>, whole: bool, title: Option<Json>, fn: Option<Json>, p: Pos)
    : Result<seq<Match>>
    requires QueriesPlain(qs)
  {
    if IsPos(s, |qs|, p) then AnalysisStep(s, qs[p.q], whole, title, fn, p.t, AnalysisAt(s, p)) else Ok([])
  }

  function StepFn(s: Sentence, qs: seq<string>, whole: bool, title: Option<Json>, fn: Option<Json>)
    : Pos -> Result<seq<Match>>
    requires QueriesPlain(qs)
  {
    p => StepAt(s, qs, whole, title, fn, p)
  }

  /** Position p holds a hit: the query gloss is found in the analysis's gloss string. */
  predicate IsHit(s: Sentence, qs: seq<string>, whole: bool, p: Pos)
    requires QueriesPlain(qs)
  {
    IsPos(s, |qs|, p) && HitOn(qs[p.q], whole, AnalysisAt(s, p))
  }

  /** The hits among ps, in order. */
  function Hits(s: Sentence, qs: seq<string>, whole: bool, ps: seq<Pos>): seq<Pos>
    requires QueriesPlain(qs)
    decreases |ps|
  {
    if |ps| == 0 then []
    else Hits(s, qs, whole, ps[..|ps| - 1]) + (if IsHit(s, qs, whole, ps[|ps| - 1]) then [ps[|ps| - 1]] else [])
  }

  lemma {:induction false} QueryPositionsOrdered(s: Sentence, qi: nat)
    ensures SortedBy(QueryPositions(s, qi), LexLess)
    ensures forall p :: p in QueryPositions(s, qi) <==> p.q == qi && IsPos(s, p.q + 1, p)
  {
    var tss := seq(|s.words|, t requires 0 <= t < |s.words| => TokenPositions(s, qi, t));
    forall t | 0 <= t < |tss| ensures SortedBy(tss[t], LexLess) {
    }
    forall i, k, x, y | 0 <= i < k < |tss| && x in tss[i] && y in tss[k] ensures LexLess(x, y) {
    }
    FlattenSorted(tss, LexLess);
    forall p ensures p in QueryPositions(s, qi) <==> p.q == qi && IsPos(s, p.q + 1, p) {
      FlattenMember(tss, p);
      if p.q == qi && IsPos(s, p.q + 1, p) {
        assert p == tss[p.t][p.j];
      }
    }
  }

  /** The loops visit every position exactly in lexicographic order. */
  lemma {:induction false} PositionsOrdered(s: Sentence, n: nat)
    ensures SortedBy(Positions(s, n), LexLess)
    ensures forall p :: p in Positions(s, n) <==> IsPos(s, n, p)
  {
    var qss := seq(n, qi requires 0 <= qi < n => QueryPositions(s, qi));
    forall qi | 0 <= qi < n ensures SortedBy(qss[qi], LexLess) {
      QueryPositionsOrdered(s, qi);
    }
    forall i, k, x, y | 0 <= i < k < n && x in qss[i] && y in qss[k] ensures LexLess(x, y) {
      QueryPositionsOrdered(s, i);
      QueryPositionsOrdered(s, k);
    }
    FlattenSorted(qss, LexLess);
    forall p ensures p in Positions(s, n) <==> IsPos(s, n, p) {
      FlattenMember(qss, p);
      if IsPos(s, n, p) {
        QueryPositionsOrdered(s, p.q);
        assert p in qss[p.q];
      }
      if exists i :: 0 <= i < n && p in qss[i] {
        var i :| 0 <= i < n && p in qss[i];
        QueryPositionsOrdered(s, i);
      }
    }
  }

  /** The token loop for query qi performs the steps of that query's positions. */
  lemma QueryStepsFlat(s: Sentence, qs: seq<string>, whole: bool, title: Option<Json>, fn: Option<Json>, qi: nat)
    requires QueriesPlain(qs) && qi < |qs|
    ensures Concat(QuerySteps(s, qs[qi], whole, title, fn))
            == Concat(Map(StepFn(s, qs, whole, title, fn), QueryPositions(s, qi)))
  {
    var f := StepFn(s, qs, whole, title, fn);
    var tss := seq(|s.words|, t requires 0 <= t < |s.words| => TokenPositions(s, qi, t));
    var rss := seq(|tss|, t requires 0 <= t < |tss| => Map(f, tss[t]));
    forall t | 0 <= t < |s.words| ensures TokenSteps(s, qs[qi], whole, title, fn, t) == rss[t] {
    }
    assert QuerySteps(s, qs[qi], whole, title, fn) == seq(|rss|, t requires 0 <= t < |rss| => Concat(rss[t]));
    ConcatNested(rss);
    MapFlatten(f, tss);
  }

  /** The search performs, in order, the steps of all positions. */
  lemma SearchFlat(s: Sentence, query: Query, whole: bool, title: Option<Json>, fn: Option<Json>)
    requires QueriesPlain(Glosses(query))
    ensures var qs := Glosses(query);
            SearchResults(s, query, whole, title, fn) == Concat(Map(StepFn(s, qs, whole, title, fn), Positions(s, |qs|)))
  {
    var qs := Glosses(query);
    var f := StepFn(s, qs, whole, title, fn);
    var qss := seq(|qs|, qi requires 0 <= qi < |qs| => QueryPositions(s, qi));
    var rss := seq(|qss|, qi requires 0 <= qi < |qss| => Map(f, qss[qi]));
    forall qi | 0 <= qi < |qs| ensures Concat(QuerySteps(s, qs[qi], whole, title, fn)) == Concat(rss[qi]) {
      QueryStepsFlat(s, qs, whole, title, fn, qi);
    }
    assert SentenceSteps(s, qs, whole, title, fn) == seq(|rss|, qi requires 0 <= qi < |rss| => Concat(rss[qi]));
    ConcatNested(rss);
    MapFlatten(f, qss);
  }

  lemma {:induction false} HitsFacts(s: Sentence, qs: seq<string>, whole: bool, ps: seq<Pos>)
    requires QueriesPlain(qs)
    ensures forall p :: p in Hits(s, qs, whole, ps) <==> p in ps && IsHit(s, qs, whole, p)
    ensures SortedBy(ps, LexLess) ==> SortedBy(Hits(s, qs, whole, ps), LexLess)
    decreases |ps|
  {
    if |ps| > 0 {
      var n := |ps| - 1;
      var init := ps[..n];
      HitsFacts(s, qs, whole, init);
      assert ps == init + [ps[n]];
      if SortedBy(ps, LexLess) {
        var hs := Hits(s, qs, whole, init);
        forall i | 0 <= i < |hs| ensures LexLess(hs[i], ps[n]) {
          assert hs[i] in init;
        }
      }
    }
  }

  /** A gloss that is present is a string. */
  predicate GlossIsString(a: Analysis) {
    a.gloss.None? || a.gloss.value.JStr?
  }

  predicate GlossesAreStrings(s: Sentence) {
    forall t, j :: 0 <= t < |s.words| && s.words[t].ana.Some? && 0 <= j < |s.words[t].ana.value|
                   ==> GlossIsString(s.words[t].ana.value[j])
  }

  /** One position's step, when its gloss is a string: nothing for a miss; for a
      hit, the translation lookup is made first, then the sentence id, and the
      first of them that fails decides the exception. */
  lemma StepShape(s: Sentence, qs: seq<string>, whole: bool, title: Option<Json>, fn: Option<Json>, p: Pos)
    requires QueriesPlain(qs) && IsPos(s, |qs|, p) && GlossIsString(AnalysisAt(s, p))
    ensures !IsHit(s, qs, whole, p) ==> StepAt(s, qs, whole, title, fn, p) == Ok([])
    ensures IsHit(s, qs, whole, p) && Translation(s).Err? ==>
              StepAt(s, qs, whole, title, fn, p) == Err(Translation(s).error)
    ensures IsHit(s, qs, whole, p) && Translation(s).Ok? && SentenceId(s).Err? ==>
              StepAt(s, qs, whole, title, fn, p) == Err(SentenceId(s).error)
    ensures IsHit(s, qs, whole, p) && Translation(s).Ok? && SentenceId(s).Ok? ==>
              StepAt(s, qs, whole, title, fn, p).Ok? && |StepAt(s, qs, whole, title, fn, p).value| == 1
  {
    var r := StepAt(s, qs, whole, title, fn, p);
    if !IsHit(s, qs, whole, p) && r.Ok? {
      assert |r.value| != 1;
    }
  }

  /** A step that does not raise yields one record at a hit and none elsewhere. */
  lemma StepSize(s: Sentence, qs: seq<string>, whole: bool, title: Option<Json>, fn: Option<Json>, p: Pos)
    requires QueriesPlain(qs) && StepAt(s, qs, whole, title, fn, p).Ok?
    ensures |StepAt(s, qs, whole, title, fn, p).value| == if IsHit(s, qs, whole, p) then 1 else 0
  {
    var r := StepAt(s, qs, whole, title, fn, p);
    if IsPos(s, |qs|, p) {
      assert IsHit(s, qs, whole, p) <==> |r.value| == 1;
    }
  }

  /** The hits are the positions the hit test selects. */
  lemma {:induction false} HitsSelected(s: Sentence, qs: seq<string>, whole: bool, ps: seq<Pos>)
    requires QueriesPlain(qs)
    ensures Hits(s, qs, whole, ps) == Filter(p => IsHit(s, qs, whole, p), ps)
    decreases |ps|
  {
    if |ps| > 0 {
      HitsSelected(s, qs, whole, ps[..|ps| - 1]);
    }
  }

  /** When no step raises, the records are one per hit, in the order of the hits. */
  lemma FlatHits(s: Sentence, qs: seq<string>, whole: bool, title: Option<Json>, fn: Option<Json>, ps: seq<Pos>)
    requires QueriesPlain(qs) && AllOk(Map(StepFn(s, qs, whole, title, fn), ps))
    ensures var rs := Flatten(Values(Map(StepFn(s, qs, whole, title, fn), ps)));
            var hs := Hits(s, qs, whole, ps);
            |rs| == |hs| && forall k :: 0 <= k < |rs| ==> StepAt(s, qs, whole, title, fn, hs[k]) == Ok([rs[k]])
  {
    var f := StepFn(s, qs, whole, title, fn);
    var keep := p => IsHit(s, qs, whole, p);
    forall i | 0 <= i < |ps| ensures f(ps[i]).Ok? && |f(ps[i]).value| == if keep(ps[i]) then 1 else 0 {
      assert Map(f, ps)[i] == f(ps[i]);
      StepSize(s, qs, whole, title, fn, ps[i]);
    }
    FlattenSelected(f, keep, ps);
    HitsSelected(s, qs, whole, ps);
  }

  /** The records `search_gloss` returns are one per hit — one per (query gloss,
      token, analysis) whose gloss string the query is found in — in the order
      of the query glosses, then of the tokens, then of the analyses, each built
      from its own hit. */
  lemma SearchOrder(s: Sentence, query: Query, whole: bool, title: Option<Json>, fn: Option<Json>)
    requires QueriesPlain(Glosses(query)) && SearchResults(s, query, whole, title, fn).Ok?
    ensures var qs := Glosses(query);
            var rs := SearchResults(s, query, whole, title, fn).value;
            var hs := Hits(s, qs, whole, Positions(s, |qs|));
            && |rs| == |hs|
            && SortedBy(hs, LexLess)
            && (forall p :: p in hs <==> IsHit(s, qs, whole, p))
            && forall k :: 0 <= k < |rs| ==>
                 IsHit(s, qs, whole, hs[k]) && RecordFor(s, qs[hs[k].q], whole, title, fn, hs[k].t, AnalysisAt(s, hs[k]), rs[k])
  {
    var qs := Glosses(query);
    var ps := Positions(s, |qs|);
    var steps := Map(StepFn(s, qs, whole, title, fn), ps);
    SearchFlat(s, query, whole, title, fn);
    ConcatOk(steps);
    FlatHits(s, qs, whole, title, fn, ps);
    PositionsOrdered(s, |qs|);
    HitsFacts(s, qs, whole, ps);
    var hs := Hits(s, qs, whole, ps);
    var rs := SearchResults(s, query, whole, title, fn).value;
    forall k | 0 <= k < |rs|
      ensures IsHit(s, qs, whole, hs[k]) && RecordFor(s, qs[hs[k].q], whole, title, fn, hs[k].t, AnalysisAt(s, hs[k]), rs[k])
    {
      assert hs[k] in hs;
    }
  }

  /** The exception `search_gloss` raises is that of the first position, in
      loop order, whose step raises. */
  lemma SearchRaisesFirst(s: Sentence, query: Query, whole: bool, title: Option<Json>, fn: Option<Json>)
    requires QueriesPlain(Glosses(query))
    ensures var qs := Glosses(query);
            var r := SearchResults(s, query, whole, title, fn);
            var ps := Positions(s, |qs|);
            r.Err? ==> exists k :: 0 <= k < |ps| && StepAt(s, qs, whole, title, fn, ps[k]) == r
                                   && forall i :: 0 <= i < k ==> StepAt(s, qs, whole, title, fn, ps[i]).Ok?
  {
    var qs := Glosses(query);
    var ps := Positions(s, |qs|);
    var steps := Map(StepFn(s, qs, whole, title, fn), ps);
    var r := SearchResults(s, query, whole, title, fn);
    SearchFlat(s, query, whole, title, fn);
    if r.Err? {
      ConcatErr(steps);
      var k :| 0 <= k < |steps| && steps[k] == r && AllOk(steps[..k]);
      forall i | 0 <= i < k ensures StepAt(s, qs, whole, title, fn, ps[i]).Ok? {
        assert steps[..k][i] == steps[i];
      }
    }
  }

  /** With every gloss a string and no hit, `search_gloss` returns no records
      and raises nothing, even for a sentence without translations or a
      paragraph id. */
  lemma SearchNoHit(s: Sentence, query: Query, whole: bool, title: Option<Json>, fn: Option<Json>)
    requires QueriesPlain(Glosses(query)) && GlossesAreStrings(s)
    requires forall p :: !IsHit(s, Glosses(query), whole, p)
    ensures SearchResults(s, query, whole, title, fn) == Ok([])
  {
    var qs := Glosses(query);
    var ps := Positions(s, |qs|);
    var steps := Map(StepFn(s, qs, whole, title, fn), ps);
    SearchFlat(s, query, whole, title, fn);
    PositionsOrdered(s, |qs|);
    forall k | 0 <= k < |ps| ensures steps[k] == Ok([]) {
      assert ps[k] in ps;
      StepShape(s, qs, whole, title, fn, ps[k]);
    }
    ConcatNothing(steps);
  }

  /** With every gloss a string and some hit, a sentence whose translation
      lookup fails raises that exception, and otherwise one whose paragraph id
      lookup fails raises that one. */
  lemma SearchHitFails(s: Sentence, query: Query, whole: bool, title: Option<Json>, fn: Option<Json>, p: Pos)
    requires QueriesPlain(Glosses(query)) && GlossesAreStrings(s)
    requires IsHit(s, Glosses(query), whole, p)
    requires Translation(s).Err? || SentenceId(s).Err?
    ensures SearchResults(s, query, whole, title, fn)
            == Err(if Translation(s).Err? then Translation(s).error else SentenceId(s).error)
  {
    var qs := Glosses(query);
    var ps := Positions(s, |qs|);
    var steps := Map(StepFn(s, qs, whole, title, fn), ps);
    var e := if Translation(s).Err? then Translation(s).error else SentenceId(s).error;
    SearchFlat(s, query, whole, title, fn);
    PositionsOrdered(s, |qs|);
    forall k | 0 <= k < |ps| ensures steps[k].Ok? || steps[k] == Err(e) {
      assert ps[k] in ps;
      StepShape(s, qs, whole, title, fn, ps[k]);
    }
    assert p in ps;
    var k :| 0 <= k < |ps| && ps[k] == p;
    StepShape(s, qs, whole, title, fn, p);
    assert steps[k] == Err(e);
    ConcatSameErr(steps, e);
  }

  /** With every gloss a string, a sentence whose translation and paragraph id
      lookups succeed raises nothing. */
  lemma SearchSucceeds(s: Sentence, query: Query, whole: bool, title: Option<Json>, fn: Option<Json>)
    requires QueriesPlain(Glosses(query)) && GlossesAreStrings(s)
    requires Translation(s).Ok? && SentenceId(s).Ok?
    ensures SearchResults(s, query, whole, title, fn).Ok?
  {
    var qs := Glosses(query);
    var ps := Positions(s, |qs|);
    var steps := Map(StepFn(s, qs, whole, title, fn), ps);
    SearchFlat(s, query, whole, title, fn);
    PositionsOrdered(s, |qs|);
    forall k | 0 <= k < |ps| ensures steps[k].Ok? {
      assert ps[k] in ps;
      StepShape(s, qs, whole, title, fn, ps[k]);
    }
    ConcatOk(steps);
  }

  /** A bare query string is searched as the one-element list holding it. */
  lemma BareQueryIsSingleton(s: Sentence, g: string, whole: bool, title: Option<Json>, fn: Option<Json>)
    requires PlainQuery(g)
    ensures QueriesPlain(Glosses(One(g)))
    ensures SearchResults(s, One(g), whole, title, fn) == SearchResults(s, Many([g]), whole, title, fn)
  {
  }
}
