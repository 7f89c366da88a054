/**
 The rule table and its first-match-wins dispatcher (`findMatchingTemplate`).
 Regular-expression semantics are a parameter: a `RegexEngine` maps a
 pattern's source text and the normalised query to the match array.
 */
module Rules {
  import opened Common
  import Text

  /**
   A JavaScript match array: index 0 holds the whole match, index i the i-th
   capture group; a group that did not participate is `None` (undefined).
   */
  type Captures = seq<Option<string>>

  /** `input.match(pattern)` for a case-insensitive pattern given by its source text. */
  type RegexEngine = (string, string) -> Option<Captures>

  /** The SQL of a template: a fixed statement or a function of the match array. */
  datatype SqlTemplate = Static(text: string) | Generator(build: Captures -> string)

  /** A recognizer: its pattern sources in trial order, its SQL and its description. */
  datatype Template = Template(patterns: seq<string>, sql: SqlTemplate, description: string)

  /** What `findMatchingTemplate` returns; `pattern` is the source of the pattern that hit. */
  datatype MatchResult = Matched(sql: string, description: string, pattern: string) | NotMatched

  /** Reading `matches[i]`: an index past the end reads as undefined. */
  function Capture(m: Captures, i: nat): Option<string> {
    if i < |m| then m[i] else None
  }

  function Materialize(t: SqlTemplate, m: Captures): string {
    match t
    case Static(text) => text
    case Generator(build) => build(m)
  }

  /** Pattern `pi` of template `ti` matches the (normalised) query `q`. */
  ghost predicate Hits(re: RegexEngine, table: seq<Template>, q: string, ti: nat, pi: nat) {
    ti < |table| && pi < |table[ti].patterns| && re(table[ti].patterns[pi], q).Some?
  }

  ghost predicate NoHit(re: RegexEngine, table: seq<Template>, q: string) {
    forall ti: nat, pi: nat :: !Hits(re, table, q, ti, pi)
  }

  /**
   Pattern `pi` of template `ti` is the first hit: no pattern of an earlier
   template hits, and no earlier pattern of the same template hits.
   */
  ghost predicate IsFirstHit(re: RegexEngine, table: seq<Template>, q: string, ti: nat, pi: nat) {
    && Hits(re, table, q, ti, pi)
    && (forall tj: nat, pj: nat :: tj < ti ==> !Hits(re, table, q, tj, pj))
    && (forall pj: nat :: pj < pi ==> !Hits(re, table, q, ti, pj))
  }

  /** The result a hit at (`ti`, `pi`) stands for: the template's SQL materialised on its match array. */
  function FromHit(re: RegexEngine, table: seq<Template>, q: string, ti: nat, pi: nat): MatchResult
    requires ti < |table| && pi < |table[ti].patterns|
    requires re(table[ti].patterns[pi], q).Some?
  {
    var t := table[ti];
    Matched(Materialize(t.sql, re(t.patterns[pi], q).value), t.description, t.patterns[pi])
  }

  /** The index of a template and of its pattern that matched, with the match array. */
  datatype Hit = Hit(template: nat, pattern: nat, captures: Captures)

  /** The inner loop: the first of `patterns[from..]` that matches `q`. */
  function FirstPatternFrom(re: RegexEngine, patterns: seq<string>, q: string, from: nat): (r: Option<(nat, Captures)>)
    requires from <= |patterns|
    ensures r.Some? ==>
      && from <= r.value.0 < |patterns|
      && re(patterns[r.value.0], q) == Some(r.value.1)
      && forall j :: from <= j < r.value.0 ==> re(patterns[j], q).None?
    ensures r.None? ==> forall j :: from <= j < |patterns| ==> re(patterns[j], q).None?
    decreases |patterns| - from
  {
    if from == |patterns| then None
    else
      match re(patterns[from], q)
      case Some(m) => Some((from, m))
      case None => FirstPatternFrom(re, patterns, q, from + 1)
  }

  /** The outer loop: the first hit among the templates `table[from..]`. */
  function FirstHitFrom(re: RegexEngine, table: seq<Template>, q: string, from: nat): (r: Option<Hit>)
    requires from <= |table|
    ensures r.Some? ==>
      && from <= r.value.template
      && Hits(re, table, q, r.value.template, r.value.pattern)
      && re(table[r.value.template].patterns[r.value.pattern], q) == Some(r.value.captures)
      && (forall tj: nat, pj: nat :: from <= tj < r.value.template ==> !Hits(re, table, q, tj, pj))
      && (forall pj: nat :: pj < r.value.pattern ==> !Hits(re, table, q, r.value.template, pj))
    ensures r.None? ==> forall tj: nat, pj: nat :: from <= tj ==> !Hits(re, table, q, tj, pj)
    decreases |table| - from
  {
    if from == |table| then None
    else
      match FirstPatternFrom(re, table[from].patterns, q, 0)
      case Some((pi, m)) => Some(Hit(from, pi, m))
      case None => FirstHitFrom(re, table, q, from + 1)
  }

  /** The scan of `findMatchingTemplate` over an already normalised query. */
  function FindIn(re: RegexEngine, table: seq<Template>, q: string): (r: MatchResult)
    ensures r.NotMatched? <==> NoHit(re, table, q)
    ensures forall ti: nat, pi: nat :: IsFirstHit(re, table, q, ti, pi) ==> r == FromHit(re, table, q, ti, pi)
  {
    match FirstHitFrom(re, table, q, 0)
    case None => NotMatched
    case Some(h) =>
      var t := table[h.template];
      Matched(Materialize(t.sql, h.captures), t.description, t.patterns[h.pattern])
  }

  /**
   `findMatchingTemplate`: the query is lower-cased and trimmed once, then the
   templates are tried in table order and each template's patterns in their
   order; the first pattern that matches decides the result.
   */
  function FindMatchingTemplate(re: RegexEngine, table: seq<Template>, query: string): (r: MatchResult)
    ensures r.NotMatched? <==> NoHit(re, table, Text.Normalize(query))
    ensures forall ti: nat, pi: nat :: IsFirstHit(re, table, Text.Normalize(query), ti, pi) ==>
      r == FromHit(re, table, Text.Normalize(query), ti, pi)
  {
    FindIn(re, table, Text.Normalize(query))
  }

  /** A hit of the concatenated table is a hit of whichever part holds that template. */
  lemma HitsOfConcat(re: RegexEngine, a: seq<Template>, b: seq<Template>, q: string)
    ensures forall tj: nat, pj: nat :: tj < |a| ==> (Hits(re, a + b, q, tj, pj) <==> Hits(re, a, q, tj, pj))
    ensures forall tj: nat, pj: nat :: |a| <= tj ==> (Hits(re, a + b, q, tj, pj) <==> Hits(re, b, q, tj - |a|, pj))
  {
    forall tj: nat | tj < |a| + |b|
      ensures (a + b)[tj] == if tj < |a| then a[tj] else b[tj - |a|]
    {
    }
  }

  /**
   Table order is priority: a table's result is that of its first part when
   the first part matches, and that of its second part otherwise. Appending
   templates therefore never changes the result for a query already matched.
   */
  lemma {:induction false} FindInConcat(re: RegexEngine, a: seq<Template>, b: seq<Template>, q: string)
    ensures FindIn(re, a + b, q) == if FindIn(re, a, q).Matched? then FindIn(re, a, q) else FindIn(re, b, q)
  {
    HitsOfConcat(re, a, b, q);
    match FirstHitFrom(re, a, q, 0)
    case Some(h) =>
      assert IsFirstHit(re, a, q, h.template, h.pattern);
      assert IsFirstHit(re, a + b, q, h.template, h.pattern);
      assert (a + b)[h.template] == a[h.template];
      assert FindIn(re, a + b, q) == FromHit(re, a + b, q, h.template, h.pattern) == FromHit(re, a, q, h.template, h.pattern);
    case None =>
      assert NoHit(re, a, q);
      match FirstHitFrom(re, b, q, 0)
      case Some(g) =>
        var ti := |a| + g.template;
        assert IsFirstHit(re, b, q, g.template, g.pattern);
        assert IsFirstHit(re, a + b, q, ti, g.pattern) by {
          assert Hits(re, a + b, q, ti, g.pattern);
          forall tj: nat, pj: nat | tj < ti
            ensures !Hits(re, a + b, q, tj, pj)
          {
            if tj >= |a| {
              assert !Hits(re, b, q, tj - |a|, pj);
            }
          }
        }
        assert (a + b)[ti] == b[g.template];
        assert FindIn(re, a + b, q) == FromHit(re, a + b, q, ti, g.pattern) == FromHit(re, b, q, g.template, g.pattern);
      case None =>
        assert NoHit(re, b, q);
        assert NoHit(re, a + b, q) by {
          forall tj: nat, pj: nat
            ensures !Hits(re, a + b, q, tj, pj)
          {
            if tj >= |a| {
              assert !Hits(re, b, q, tj - |a|, pj);
            } else {
              assert !Hits(re, a, q, tj, pj);
            }
          }
        }
  }

  /**
   The engine is only ever shown the normalised query: two engines that agree
   on it for every pattern of the table give the same result, whatever they do
   on the raw text.
   */
  lemma {:induction false} EngineSeesOnlyNormalized(re1: RegexEngine, re2: RegexEngine, table: seq<Template>, query: string)
    requires forall ti, pi :: 0 <= ti < |table| && 0 <= pi < |table[ti].patterns| ==>
      re1(table[ti].patterns[pi], Text.Normalize(query)) == re2(table[ti].patterns[pi], Text.Normalize(query))
    ensures FindMatchingTemplate(re1, table, query) == FindMatchingTemplate(re2, table, query)
  {
    var q := Text.Normalize(query);
    assert forall ti: nat, pi: nat :: Hits(re1, table, q, ti, pi) <==> Hits(re2, table, q, ti, pi);
    match FirstHitFrom(re1, table, q, 0)
    case Some(h) =>
      assert IsFirstHit(re1, table, q, h.template, h.pattern);
      assert IsFirstHit(re2, table, q, h.template, h.pattern);
      assert FromHit(re1, table, q, h.template, h.pattern) == FromHit(re2, table, q, h.template, h.pattern);
    case None =>
      assert NoHit(re2, table, q);
  }

  /** Submitting the normalised form of a query gives the same result as the query itself. */
  lemma NormalizedQueryGivesSameResult(re: RegexEngine, table: seq<Template>, query: string)
    ensures FindMatchingTemplate(re, table, Text.Normalize(query)) == FindMatchingTemplate(re, table, query)
  {
    Text.NormalizeIdempotent(query);
  }

  /**
   No later template can override a hit: when pattern `pi` of template `ti`
   matches, the query is matched and the answer comes from template `ti` or
   from one before it.
   */
  lemma HitBoundsWinner(re: RegexEngine, table: seq<Template>, q: string, ti: nat, pi: nat) returns (k: nat)
    requires Hits(re, table, q, ti, pi)
    ensures k <= ti
    ensures FindIn(re, table, q).Matched?
    ensures FindIn(re, table, q).description == table[k].description
  {
    var h := FirstHitFrom(re, table, q, 0);
    k := h.value.template;
  }
}
