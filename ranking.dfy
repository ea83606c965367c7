/**
 * The lexical retriever of the chat back end (findRelevantDocumentsLegacy
 * in services/geminiService.ts): tokenise the query, score every
 * document of the store, keep the documents scoring above 1 and sort them
 * by descending score with a stable sort.
 */
module Ranking {
  import opened Types
  import opened Text

  const StopWords: seq<string> := [
    "czy", "jak", "co", "kiedy", "gdzie", "dlaczego", "ile", "w", "z", "na", "proszę", "o", "dla"
  ]

  /** The characters `/[.,?!;:"()]/g` strips from the query. */
  const Punctuation: set<char> := {'.', ',', '?', '!', ';', ':', '"', '(', ')'}

  // ---------------------------------------------------------------------
  // Tokenisation
  // ---------------------------------------------------------------------

  predicate KeepToken(token: string) {
    Utf16Length(token) > 2 && token !in StopWords
  }

  /** `tokens.filter(token => token.length > 2 && !STOP_WORDS.includes(token))` */
  function KeepTokens(ts: seq<string>): (r: seq<string>)
    ensures forall k :: 0 <= k < |r| ==> KeepToken(r[k]) && r[k] in ts
    ensures forall t :: t in ts && KeepToken(t) ==> t in r
  {
    if ts == [] then []
    else (if KeepToken(ts[0]) then [ts[0]] else []) + KeepTokens(ts[1..])
  }

  /** Lower-case, strip punctuation, split on runs of white space, drop short words and stop words. */
  function Tokenize(query: string): seq<string> {
    KeepTokens(SplitWhitespace(RemoveChars(Lower(query), Punctuation)))
  }

  /**
   * Every token is longer than two UTF-16 code units, is not a stop word, and is
   * made of lower-cased query characters other than white space and the
   * stripped punctuation.
   */
  lemma TokenShape(query: string, k: int, c: char)
    requires 0 <= k < |Tokenize(query)|
    ensures KeepToken(Tokenize(query)[k])
    ensures c in Tokenize(query)[k] ==> c in Lower(query) && !IsWhitespace(c) && c !in Punctuation
  {
    var pieces := SplitWhitespace(RemoveChars(Lower(query), Punctuation));
    var t := Tokenize(query)[k];
    if c in t {
      var j :| 0 <= j < |pieces| && pieces[j] == t;
      SplitWhitespaceChars(RemoveChars(Lower(query), Punctuation), j, c);
    }
  }

  /** A word of the query that survives the filters is a token. */
  lemma WordIsToken(query: string, word: string)
    requires word in SplitWhitespace(RemoveChars(Lower(query), Punctuation)) && KeepToken(word)
    ensures word in Tokenize(query)
  {
  }

  // ---------------------------------------------------------------------
  // Scoring
  // ---------------------------------------------------------------------

  /** `(doc.title + " " + doc.content).toLowerCase()` */
  function SearchText(doc: KnowledgeDoc): string {
    Lower(doc.title + " " + doc.content)
  }

  /** The category boost as written: the category name must contain the whole query. */
  predicate CategoryMatches(doc: KnowledgeDoc, query: string) {
    Contains(Lower(CategoryName(doc.category)), Lower(query))
  }

  function CategoryBoost(doc: KnowledgeDoc, query: string): nat {
    if CategoryMatches(doc, query) then 5 else 0
  }

  /**
   * What one token adds inside the `forEach`: +1 for a hit, +5 more when it
   * is also in the title, and +2 under a test that repeats the hit test.
   */
  function TokenPoints(doc: KnowledgeDoc, token: string): nat {
    var contentLower := SearchText(doc);
    if Contains(contentLower, token) then
      1 + (if Contains(Lower(doc.title), token) then 5 else 0) + (if Contains(contentLower, token) then 2 else 0)
    else 0
  }

  /** The points of the tokens in `ts`, added in order. */
  function TokensScore(doc: KnowledgeDoc, ts: seq<string>): nat {
    if ts == [] then 0 else TokensScore(doc, ts[..|ts| - 1]) + TokenPoints(doc, ts[|ts| - 1])
  }

  function Score(doc: KnowledgeDoc, query: string, tokens: seq<string>): nat {
    CategoryBoost(doc, query) + TokensScore(doc, tokens)
  }

  /** The lower-cased title sits at the start of the searched text. */
  lemma TitleStartsSearchText(doc: KnowledgeDoc)
    ensures OccursAt(SearchText(doc), Lower(doc.title), 0)
  {
    var s := doc.title + " " + doc.content;
    LowerSlice(s, 0, |doc.title|);
    assert s[0..|doc.title|] == doc.title;
  }

  /** A token is worth 8 when it is in the title, 3 when it is only in the body, 0 when absent. */
  lemma TokenPointsValues(doc: KnowledgeDoc, token: string)
    ensures Contains(Lower(doc.title), token) ==> TokenPoints(doc, token) == 8
    ensures !Contains(Lower(doc.title), token) && Contains(SearchText(doc), token) ==> TokenPoints(doc, token) == 3
    ensures !Contains(SearchText(doc), token) ==> TokenPoints(doc, token) == 0
  {
    if Contains(Lower(doc.title), token) {
      var j :| 0 <= j <= |Lower(doc.title)| - |token| && OccursAt(Lower(doc.title), token, j);
      TitleStartsSearchText(doc);
      ContainsTransitive(SearchText(doc), Lower(doc.title), token, 0, j);
    }
  }

  /** The token points total 0 exactly when no token hits, and at least 3 otherwise. */
  lemma {:induction false} TokensScoreShape(doc: KnowledgeDoc, ts: seq<string>)
    ensures TokensScore(doc, ts) == 0 || TokensScore(doc, ts) >= 3
    ensures TokensScore(doc, ts) == 0 <==> forall k :: 0 <= k < |ts| ==> !Contains(SearchText(doc), ts[k])
  {
    if ts != [] {
      var init := ts[..|ts| - 1];
      TokensScoreShape(doc, init);
      TokenPointsValues(doc, ts[|ts| - 1]);
      assert forall k :: 0 <= k < |init| ==> init[k] == ts[k];
    }
  }

  /**
   * A score is 0, or at least 3, so the `score > 1` threshold keeps exactly
   * the documents whose category contains the query or that hold a token.
   */
  lemma ScoreThreshold(doc: KnowledgeDoc, query: string, tokens: seq<string>)
    ensures Score(doc, query, tokens) == 0 || Score(doc, query, tokens) >= 3
    ensures Score(doc, query, tokens) > 1 <==> Score(doc, query, tokens) > 0
    ensures Score(doc, query, tokens) > 1 <==>
              CategoryMatches(doc, query) || exists k :: 0 <= k < |tokens| && Contains(SearchText(doc), tokens[k])
  {
    TokensScoreShape(doc, tokens);
  }

  /** The `forEach` over the query tokens, accumulating into `score`. */
  method ScoreDocument(doc: KnowledgeDoc, query: string, queryTokens: seq<string>) returns (score: nat)
    ensures score == Score(doc, query, queryTokens)
  {
    score := 0;
    var contentLower := SearchText(doc);
    if Contains(Lower(CategoryName(doc.category)), Lower(query)) {
      score := score + 5;
    }
    var i := 0;
    while i < |queryTokens|
      invariant 0 <= i <= |queryTokens|
      invariant score == CategoryBoost(doc, query) + TokensScore(doc, queryTokens[..i])
    {
      var token := queryTokens[i];
      assert queryTokens[..i + 1][..i] == queryTokens[..i];
      if Contains(contentLower, token) {
        score := score + 1;
        if Contains(Lower(doc.title), token) {
          score := score + 5;
        }
        if Contains(contentLower, token) {
          score := score + 2;
        }
      }
      i := i + 1;
    }
    assert queryTokens[..i] == queryTokens;
  }

  // ---------------------------------------------------------------------
  // Filter and stable sort
  // ---------------------------------------------------------------------

  /** A scored document; `index` is its position in the store. */
  datatype Scored = Scored(doc: KnowledgeDoc, score: nat, index: nat)

  /** `runtimeKnowledgeBase.map(doc => ({ doc, score }))` */
  function Candidates(store: seq<KnowledgeDoc>, query: string, tokens: seq<string>): (c: seq<Scored>)
    ensures |c| == |store|
    ensures forall i :: 0 <= i < |store| ==> c[i] == Scored(store[i], Score(store[i], query, tokens), i)
  {
    seq(|store|, i requires 0 <= i < |store| => Scored(store[i], Score(store[i], query, tokens), i))
  }

  /** `.filter(item => item.score > 1)` */
  function Relevant(c: seq<Scored>): (r: seq<Scored>)
    ensures forall x :: x in r <==> x in c && x.score > 1
  {
    if c == [] then []
    else (if c[0].score > 1 then [c[0]] else []) + Relevant(c[1..])
  }

  predicate IndicesIncreasing(s: seq<Scored>) {
    forall j, k :: 0 <= j < k < |s| ==> s[j].index < s[k].index
  }

  lemma {:induction false} RelevantKeepsOrder(c: seq<Scored>)
    requires IndicesIncreasing(c)
    ensures IndicesIncreasing(Relevant(c))
  {
    if c != [] {
      RelevantKeepsOrder(c[1..]);
      var rest := Relevant(c[1..]);
      forall k | 0 <= k < |rest| ensures c[0].index < rest[k].index {
        assert rest[k] in c[1..];
      }
    }
  }

  /**
   * The stable insertion of `x` in front of a list already sorted by
   * descending score: `x` goes before the first element whose score is not
   * larger than its own, so it stays ahead of the ties that followed it.
   */
  function Insert(x: Scored, t: seq<Scored>): (r: seq<Scored>)
    ensures multiset(r) == multiset([x] + t)
  {
    if t == [] || x.score >= t[0].score then [x] + t
    else
      assert t == [t[0]] + t[1..];
      [t[0]] + Insert(x, t[1..])
  }

  /** `.sort((a, b) => b.score - a.score)`, a stable sort. */
  function SortByScore(s: seq<Scored>): (r: seq<Scored>)
    ensures multiset(r) == multiset(s)
  {
    if s == [] then []
    else
      assert s == [s[0]] + s[1..];
      Insert(s[0], SortByScore(s[1..]))
  }

  /** Descending score, and store order among equal scores. */
  predicate Before(a: Scored, b: Scored) {
    a.score > b.score || (a.score == b.score && a.index < b.index)
  }

  predicate Ranked(s: seq<Scored>) {
    forall j, k :: 0 <= j < k < |s| ==> Before(s[j], s[k])
  }

  lemma {:induction false} InsertRanked(x: Scored, t: seq<Scored>)
    requires Ranked(t)
    requires forall y :: y in t ==> x.index < y.index
    ensures Ranked(Insert(x, t))
  {
    if t != [] && x.score < t[0].score {
      InsertRanked(x, t[1..]);
      var rest := Insert(x, t[1..]);
      forall k | 0 <= k < |rest| ensures Before(t[0], rest[k]) {
        assert rest[k] in multiset([x] + t[1..]);
      }
      ConsRanked(t[0], rest);
    } else if t != [] {
      forall k | 0 <= k < |t| ensures Before(x, t[k]) {
        assert t[k] in t;
        assert k == 0 || Before(t[0], t[k]);
      }
      ConsRanked(x, t);
    }
  }

  lemma ConsRanked(a: Scored, rest: seq<Scored>)
    requires Ranked(rest)
    requires forall k :: 0 <= k < |rest| ==> Before(a, rest[k])
    ensures Ranked([a] + rest)
  {
    var s := [a] + rest;
    forall j, k | 0 <= j < k < |s| ensures Before(s[j], s[k]) {
      assert s[k] == rest[k - 1];
      if j > 0 {
        assert s[j] == rest[j - 1];
      }
    }
  }

  lemma {:induction false} SortByScoreRanked(s: seq<Scored>)
    requires IndicesIncreasing(s)
    ensures Ranked(SortByScore(s))
  {
    if s != [] {
      SortByScoreRanked(s[1..]);
      var sorted := SortByScore(s[1..]);
      forall y | y in sorted ensures s[0].index < y.index {
        assert y in multiset(s[1..]);
      }
      InsertRanked(s[0], sorted);
    }
  }

  /** The scored documents findRelevantDocumentsLegacy returns, in order. */
  function RankedItems(store: seq<KnowledgeDoc>, query: string): seq<Scored> {
    var tokens := Tokenize(query);
    if tokens == [] then [] else SortByScore(Relevant(Candidates(store, query, tokens)))
  }

  function DocsOf(s: seq<Scored>): (r: seq<KnowledgeDoc>)
    ensures |r| == |s|
    ensures forall k :: 0 <= k < |s| ==> r[k] == s[k].doc
  {
    seq(|s|, k requires 0 <= k < |s| => s[k].doc)
  }

  /** findRelevantDocumentsLegacy over the given store. */
  method FindRelevantDocuments(store: seq<KnowledgeDoc>, query: string) returns (docs: seq<KnowledgeDoc>)
    ensures docs == DocsOf(RankedItems(store, query))
  {
    var queryTokens := Tokenize(query);
    if |queryTokens| == 0 {
      return [];
    }
    ghost var candidates := Candidates(store, query, queryTokens);
    var scoredDocs: seq<Scored> := [];
    var i := 0;
    while i < |store|
      invariant 0 <= i <= |store|
      invariant scoredDocs == candidates[..i]
    {
      var score := ScoreDocument(store[i], query, queryTokens);
      TakeOneMore(candidates, i);
      scoredDocs := scoredDocs + [Scored(store[i], score, i)];
      i := i + 1;
    }
    assert candidates[..i] == candidates;
    docs := DocsOf(SortByScore(Relevant(scoredDocs)));
  }

  /**
   * The ranking holds exactly the documents scoring above 1, each once, by
   * descending score and in store order among equal scores; a query without
   * tokens ranks nothing.
   */
  lemma RankedItemsSpec(store: seq<KnowledgeDoc>, query: string)
    ensures Tokenize(query) == [] ==> RankedItems(store, query) == []
    ensures Ranked(RankedItems(store, query))
    ensures forall x :: x in RankedItems(store, query) <==>
              Tokenize(query) != [] && x.index < |store| && x.doc == store[x.index]
              && x.score == Score(store[x.index], query, Tokenize(query)) && x.score > 1
  {
    var tokens := Tokenize(query);
    if tokens != [] {
      var c := Candidates(store, query, tokens);
      RelevantKeepsOrder(c);
      SortByScoreRanked(Relevant(c));
      var r := RankedItems(store, query);
      forall x: Scored ensures x in r <==> x in Relevant(c) {
        assert x in r <==> x in multiset(r);
      }
      forall x: Scored | x.index < |store| && x.doc == store[x.index] && x.score == Score(store[x.index], query, tokens)
        ensures x in c
      {
        assert c[x.index] == x;
      }
    }
  }

  /** No document is returned twice. */
  lemma RankedItemsDistinct(store: seq<KnowledgeDoc>, query: string, j: int, k: int)
    requires 0 <= j < k < |RankedItems(store, query)|
    ensures RankedItems(store, query)[j].index != RankedItems(store, query)[k].index
  {
    RankedItemsSpec(store, query);
  }
}
