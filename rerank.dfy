/**
 * The post-processing and error routing of the `search_and_rerank` tool of the
 * rerank server (rag-mcp-server/main.py).
 *
 * The three foreign calls are inputs to the model:
 *  - the embedding call is an `Outcome<E>` for an opaque embedding type `E`;
 *  - the vector-search RPC is a function from (embedding, match_count) to an
 *    `Outcome` of result rows;
 *  - the cross-encoder `predict` is a function from the (query, doc) pairs to an
 *    `Outcome` of scores.
 * Scores are values of any type `S` ordered by a total preorder `le`; the sort
 * key is the score and `le(a, b)` reads "a is at most b".
 */
module RerankServer {

  /** The result of a foreign call: a value, or an exception with its `str()`. */
  datatype Outcome<T> = Done(value: T) | Raised(error: string)

  /** One row of the RPC's result: column name to value. */
  type Row = map<string, string>

  /** A cross-encoder input pair; `[query, doc]` in the source. */
  datatype Pair = Pair(query: string, doc: string)

  /** A `{"text": doc, "score": score}` record. */
  datatype Scored<S> = Scored(text: string, score: S)

  /** What the tool returns: the ranked records (rendered by `str()`), or a message. */
  datatype Reply<S> = Ranked(records: seq<Scored<S>>) | Message(text: string)

  const NoMatchesMessage := "No matching documents found"
  const SearchErrorPrefix := "Error searching documents: "
  const RequestErrorPrefix := "Error processing request: "
  /** `str(KeyError('text'))`, raised by `item['text']` on a row without that column. */
  const MissingTextError := "'text'"

  // ---------------------------------------------------------------------------
  // Orders on scores

  ghost predicate TotalPreorder<S(!new)>(le: (S, S) -> bool) {
    && (forall a, b :: le(a, b) || le(b, a))
    && (forall a, b, c :: le(a, b) && le(b, c) ==> le(a, c))
  }

  /** Two scores that the sort key cannot tell apart. */
  predicate Equiv<S>(le: (S, S) -> bool, a: S, b: S) {
    le(a, b) && le(b, a)
  }

  /** Non-increasing by score: every later record scores at most every earlier one. */
  ghost predicate SortedDesc<S>(le: (S, S) -> bool, xs: seq<Scored<S>>) {
    forall i, j :: 0 <= i < j < |xs| ==> le(xs[j].score, xs[i].score)
  }

  /** The records whose score is equivalent to `v`, in their order in `xs`. */
  function Class<S>(le: (S, S) -> bool, xs: seq<Scored<S>>, v: S): (r: seq<Scored<S>>)
    ensures |r| <= |xs|
    ensures forall k :: 0 <= k < |r| ==> Equiv(le, r[k].score, v)
  {
    if xs == [] then []
    else if Equiv(le, xs[0].score, v) then [xs[0]] + Class(le, xs[1..], v)
    else Class(le, xs[1..], v)
  }

  /**
   * `r` is what a stable sort by score, highest first, makes of `xs`: sorted,
   * a permutation, and records of equal score in their original order.
   */
  ghost predicate StableSortDescOf<S(!new)>(le: (S, S) -> bool, r: seq<Scored<S>>, xs: seq<Scored<S>>) {
    && SortedDesc(le, r)
    && multiset(r) == multiset(xs)
    && forall v :: Class(le, r, v) == Class(le, xs, v)
  }

  // ---------------------------------------------------------------------------
  // The sort: `sorted(scored, key=lambda x: x["score"], reverse=True)`

  /** Puts `x` in front of the first record that does not score above it. */
  function Insert<S>(le: (S, S) -> bool, x: Scored<S>, ys: seq<Scored<S>>): seq<Scored<S>>
  {
    if ys == [] then [x]
    else if le(ys[0].score, x.score) then [x] + ys
    else [ys[0]] + Insert(le, x, ys[1..])
  }

  function SortByScoreDesc<S>(le: (S, S) -> bool, xs: seq<Scored<S>>): seq<Scored<S>>
  {
    if xs == [] then [] else Insert(le, xs[0], SortByScoreDesc(le, xs[1..]))
  }

  lemma {:induction false} InsertMultiset<S>(le: (S, S) -> bool, x: Scored<S>, ys: seq<Scored<S>>)
    ensures multiset(Insert(le, x, ys)) == multiset(ys) + multiset{x}
    ensures |Insert(le, x, ys)| == |ys| + 1
  {
    if ys != [] && !le(ys[0].score, x.score) {
      InsertMultiset(le, x, ys[1..]);
      assert ys == [ys[0]] + ys[1..];
    }
  }

  lemma {:induction false} InsertSorted<S(!new)>(le: (S, S) -> bool, x: Scored<S>, ys: seq<Scored<S>>)
    requires TotalPreorder(le)
    requires SortedDesc(le, ys)
    ensures SortedDesc(le, Insert(le, x, ys))
  {
    if ys != [] && !le(ys[0].score, x.score) {
      InsertSorted(le, x, ys[1..]);
      var t := Insert(le, x, ys[1..]);
      InsertMultiset(le, x, ys[1..]);
      forall k | 0 <= k < |t| ensures le(t[k].score, ys[0].score) {
        assert t[k] in multiset(ys[1..]) + multiset{x};
        if t[k] == x {
        } else {
          assert t[k] in ys[1..];
          var j :| 0 <= j < |ys[1..]| && ys[1..][j] == t[k];
          assert ys[j + 1] == t[k];
        }
      }
    }
  }

  /** Inserting `x` adds it at the front of its own score class and leaves other classes alone. */
  lemma {:induction false} InsertClass<S(!new)>(le: (S, S) -> bool, x: Scored<S>, ys: seq<Scored<S>>, v: S)
    requires TotalPreorder(le)
    ensures Class(le, Insert(le, x, ys), v)
         == if Equiv(le, x.score, v) then [x] + Class(le, ys, v) else Class(le, ys, v)
  {
    if ys == [] {
    } else if le(ys[0].score, x.score) {
      assert ([x] + ys)[1..] == ys;
    } else {
      InsertClass(le, x, ys[1..], v);
      var t := Insert(le, x, ys[1..]);
      assert ([ys[0]] + t)[1..] == t;
      if Equiv(le, x.score, v) {
        assert !Equiv(le, ys[0].score, v);
      }
    }
  }

  lemma {:induction false} SortIsStableSortDesc<S(!new)>(le: (S, S) -> bool, xs: seq<Scored<S>>)
    requires TotalPreorder(le)
    ensures StableSortDescOf(le, SortByScoreDesc(le, xs), xs)
  {
    if xs != [] {
      var t := SortByScoreDesc(le, xs[1..]);
      SortIsStableSortDesc(le, xs[1..]);
      InsertSorted(le, xs[0], t);
      InsertMultiset(le, xs[0], t);
      assert xs == [xs[0]] + xs[1..];
      forall v ensures Class(le, Insert(le, xs[0], t), v) == Class(le, xs, v) {
        InsertClass(le, xs[0], t, v);
      }
    }
  }

  /** The first records of two sorted permutations of each other have equivalent scores. */
  lemma HeadsEquivalent<S(!new)>(le: (S, S) -> bool, r1: seq<Scored<S>>, r2: seq<Scored<S>>)
    requires SortedDesc(le, r1) && SortedDesc(le, r2)
    requires TotalPreorder(le)
    requires multiset(r1) == multiset(r2) && r1 != []
    ensures r2 != [] && Equiv(le, r1[0].score, r2[0].score)
  {
    assert r1[0] in multiset(r2);
    assert r2[0] in multiset(r1);
    var i :| 0 <= i < |r1| && r1[i] == r2[0];
    var j :| 0 <= j < |r2| && r2[j] == r1[0];
  }

  /** Removing equal first records keeps every score class equal. */
  lemma TailClassesAgree<S(!new)>(le: (S, S) -> bool, r1: seq<Scored<S>>, r2: seq<Scored<S>>, w: S)
    requires r1 != [] && r2 != [] && r1[0] == r2[0]
    requires Class(le, r1, w) == Class(le, r2, w)
    ensures Class(le, r1[1..], w) == Class(le, r2[1..], w)
  {
    if Equiv(le, r1[0].score, w) {
      assert Class(le, r1, w)[1..] == Class(le, r1[1..], w);
      assert Class(le, r2, w)[1..] == Class(le, r2[1..], w);
    }
  }

  /** Two lists that are both sorted, equal as multisets and agree on every score class are equal. */
  lemma {:induction false} SortedPermutationsAgree<S(!new)>(le: (S, S) -> bool, r1: seq<Scored<S>>, r2: seq<Scored<S>>)
    requires TotalPreorder(le)
    requires SortedDesc(le, r1) && SortedDesc(le, r2)
    requires multiset(r1) == multiset(r2)
    requires forall v :: Class(le, r1, v) == Class(le, r2, v)
    ensures r1 == r2
  {
    if r1 == [] {
      assert |multiset(r2)| == 0;
    } else {
      HeadsEquivalent(le, r1, r2);
      var a, b := r1[0], r2[0];
      assert Class(le, r1, a.score) == Class(le, r2, a.score);
      assert Class(le, r1, a.score)[0] == a;
      assert Class(le, r2, a.score)[0] == b;
      forall w ensures Class(le, r1[1..], w) == Class(le, r2[1..], w) {
        assert Class(le, r1, w) == Class(le, r2, w);
        TailClassesAgree(le, r1, r2, w);
      }
      assert r1 == [a] + r1[1..] && r2 == [b] + r2[1..];
      assert multiset(r1[1..]) == multiset(r1) - multiset{a} == multiset(r2) - multiset{b} == multiset(r2[1..]);
      SortedPermutationsAgree(le, r1[1..], r2[1..]);
    }
  }

  /**
   * The insertion sort is the reference definition of the stable descending
   * sort: a list is a stable descending sort of `xs` exactly when it equals it.
   */
  lemma StableSortDescUnique<S(!new)>(le: (S, S) -> bool, r: seq<Scored<S>>, xs: seq<Scored<S>>)
    requires TotalPreorder(le)
    ensures StableSortDescOf(le, r, xs) <==> r == SortByScoreDesc(le, xs)
  {
    SortIsStableSortDesc(le, xs);
    if StableSortDescOf(le, r, xs) {
      SortedPermutationsAgree(le, r, SortByScoreDesc(le, xs));
    }
  }

  // ---------------------------------------------------------------------------
  // The pipeline

  /**
   * `[item['text'] for item in result.data]`: the text column of every row, in
   * retrieval order; the first row without that column raises `KeyError('text')`.
   */
  function Documents(rows: seq<Row>): (r: Outcome<seq<string>>)
    ensures r.Done? <==> forall i :: 0 <= i < |rows| ==> "text" in rows[i]
    ensures r.Done? ==> |r.value| == |rows| && forall i :: 0 <= i < |rows| ==> r.value[i] == rows[i]["text"]
    ensures r.Raised? ==> r.error == MissingTextError
  {
    if rows == [] then Done([])
    else if "text" !in rows[0] then Raised(MissingTextError)
    else match Documents(rows[1..])
      case Done(rest) => Done([rows[0]["text"]] + rest)
      case Raised(e) => Raised(e)
  }

  /** `[[query, doc] for doc in documents]`: one pair per document, query first. */
  function Pairs(query: string, docs: seq<string>): (r: seq<Pair>)
    ensures |r| == |docs|
    ensures forall i :: 0 <= i < |docs| ==> r[i].query == query && r[i].doc == docs[i]
  {
    seq(|docs|, i requires 0 <= i < |docs| => Pair(query, docs[i]))
  }

  /** Python's `zip(documents, scores)`: stops at the end of the shorter list. */
  function Zip<S>(docs: seq<string>, scores: seq<S>): (r: seq<Scored<S>>)
    ensures |r| == if |docs| <= |scores| then |docs| else |scores|
    ensures forall i :: 0 <= i < |r| ==> r[i] == Scored(docs[i], scores[i])
  {
    if docs == [] || scores == [] then []
    else [Scored(docs[0], scores[0])] + Zip(docs[1..], scores[1..])
  }

  /**
   * The length of Python's `xs[:k]` for `|xs| == n`: a negative stop counts from
   * the end, and the stop is then clamped into `0..n`.
   */
  function PrefixLength(n: nat, k: int): (m: nat)
    ensures m <= n
    ensures k >= 0 ==> m == if k <= n then k else n
    ensures k < 0 ==> m == if n + k >= 0 then n + k else 0
  {
    var stop := if k < 0 then k + n else k;
    if stop < 0 then 0 else if stop > n then n else stop
  }

  /** `sorted(scored, key=..., reverse=True)[:top_k]`. */
  function TopK<S>(le: (S, S) -> bool, scored: seq<Scored<S>>, topK: int): seq<Scored<S>>
  {
    var sorted := SortByScoreDesc(le, scored);
    sorted[..PrefixLength(|sorted|, topK)]
  }

  /**
   * The top-k records are sorted, drawn from the input, a prefix of its stable
   * descending sort, as many as the slice allows, and all of it when `top_k`
   * covers the input.
   */
  lemma TopKSpec<S(!new)>(le: (S, S) -> bool, scored: seq<Scored<S>>, topK: int)
    requires TotalPreorder(le)
    ensures var r := TopK(le, scored, topK);
      && |r| == PrefixLength(|scored|, topK)
      && SortedDesc(le, r)
      && multiset(r) <= multiset(scored)
      && (exists full :: StableSortDescOf(le, full, scored) && |r| <= |full| && r == full[..|r|])
      && (topK >= |scored| ==> StableSortDescOf(le, r, scored))
  {
    var full := SortByScoreDesc(le, scored);
    SortIsStableSortDesc(le, scored);
    assert |full| == |multiset(full)| == |multiset(scored)| == |scored|;
    var r := TopK(le, scored, topK);
    PrefixFacts(le, full, PrefixLength(|full|, topK));
    assert StableSortDescOf(le, full, scored) && |r| <= |full| && r == full[..|r|];
    if topK >= |scored| {
      assert r == full;
    }
  }

  lemma PrefixFacts<S>(le: (S, S) -> bool, xs: seq<Scored<S>>, n: nat)
    requires n <= |xs|
    requires SortedDesc(le, xs)
    ensures SortedDesc(le, xs[..n])
    ensures multiset(xs[..n]) <= multiset(xs)
  {
    assert xs == xs[..n] + xs[n..];
    assert multiset(xs) == multiset(xs[..n]) + multiset(xs[n..]);
  }

  /**
   * `search_and_rerank(query, collection_name, match_count, top_k)` with the
   * embedding outcome `embedding`, the vector search `search` and the
   * cross-encoder `predict`. `collection_name` reaches only the log lines and is
   * therefore not a parameter.
   */
  function SearchAndRerank<E, S>(query: string, matchCount: int, topK: int,
                                 embedding: Outcome<E>,
                                 search: (E, int) -> Outcome<seq<Row>>,
                                 predict: seq<Pair> -> Outcome<seq<S>>,
                                 le: (S, S) -> bool): Reply<S>
  {
    match embedding
    case Raised(e) => Message(RequestErrorPrefix + e)
    case Done(vector) =>
      match search(vector, matchCount)
      case Raised(e) => Message(SearchErrorPrefix + e)
      case Done(rows) =>
        if rows == [] then Message(NoMatchesMessage)
        else match Documents(rows)
          case Raised(e) => Message(SearchErrorPrefix + e)
          case Done(docs) =>
            match predict(Pairs(query, docs))
            case Raised(e) => Message(SearchErrorPrefix + e)
            case Done(scores) => Ranked(TopK(le, Zip(docs, scores), topK))
  }

  /** A failed embedding ends the request before the search: only the outer handler's message remains. */
  lemma EmbeddingFailureIsRequestError<E, S>(query: string, matchCount: int, topK: int, e: string,
                                              search: (E, int) -> Outcome<seq<Row>>,
                                              predict: seq<Pair> -> Outcome<seq<S>>,
                                              le: (S, S) -> bool)
    ensures SearchAndRerank(query, matchCount, topK, Raised(e), search, predict, le)
         == Message(RequestErrorPrefix + e)
  {
  }

  /** An empty search result is reported as such, whatever the scorer would do. */
  lemma EmptySearchIsNoMatches<E, S>(query: string, matchCount: int, topK: int, vector: E,
                                      search: (E, int) -> Outcome<seq<Row>>,
                                      predict: seq<Pair> -> Outcome<seq<S>>,
                                      le: (S, S) -> bool)
    requires search(vector, matchCount) == Done([])
    ensures SearchAndRerank(query, matchCount, topK, Done(vector), search, predict, le)
         == Message(NoMatchesMessage)
  {
  }

  /**
   * A failure of the search, of the document extraction or of the scorer is
   * caught by the inner handler and answered with its message.
   */
  lemma SearchFailureIsSearchError<E, S>(query: string, matchCount: int, topK: int, vector: E,
                                          search: (E, int) -> Outcome<seq<Row>>,
                                          predict: seq<Pair> -> Outcome<seq<S>>,
                                          le: (S, S) -> bool)
    ensures search(vector, matchCount).Raised? ==>
      SearchAndRerank(query, matchCount, topK, Done(vector), search, predict, le)
      == Message(SearchErrorPrefix + search(vector, matchCount).error)
    ensures search(vector, matchCount).Done? && search(vector, matchCount).value != [] &&
            (exists i :: 0 <= i < |search(vector, matchCount).value| && "text" !in search(vector, matchCount).value[i]) ==>
      SearchAndRerank(query, matchCount, topK, Done(vector), search, predict, le)
      == Message(SearchErrorPrefix + MissingTextError)
    ensures search(vector, matchCount).Done? && search(vector, matchCount).value != [] &&
            Documents(search(vector, matchCount).value).Done? &&
            predict(Pairs(query, Documents(search(vector, matchCount).value).value)).Raised? ==>
      SearchAndRerank(query, matchCount, topK, Done(vector), search, predict, le)
      == Message(SearchErrorPrefix + predict(Pairs(query, Documents(search(vector, matchCount).value).value)).error)
  {
  }

  /**
   * When every call succeeds, the reply lists the records `zip(documents, scores)`
   * sorted stably by score, highest first, cut to `top_k`. The scorer is called on
   * one `[query, text]` pair per row, in row order.
   */
  lemma RankedReply<E, S(!new)>(query: string, matchCount: int, topK: int, vector: E,
                                search: (E, int) -> Outcome<seq<Row>>,
                                predict: seq<Pair> -> Outcome<seq<S>>,
                                le: (S, S) -> bool,
                                rows: seq<Row>, docs: seq<string>, pairs: seq<Pair>, scores: seq<S>)
    requires TotalPreorder(le)
    requires search(vector, matchCount) == Done(rows) && rows != []
    requires |docs| == |rows| && |pairs| == |rows|
    requires forall i :: 0 <= i < |rows| ==> "text" in rows[i] && docs[i] == rows[i]["text"]
    requires forall i :: 0 <= i < |rows| ==> pairs[i] == Pair(query, docs[i])
    requires predict(pairs) == Done(scores)
    ensures var r := SearchAndRerank(query, matchCount, topK, Done(vector), search, predict, le);
      && r.Ranked?
      && var n := |Zip(docs, scores)|;
      && n == (if |scores| < |docs| then |scores| else |docs|)
      && (0 <= topK ==> |r.records| == if topK < n then topK else n)
      && (topK < 0 ==> |r.records| == if n + topK > 0 then n + topK else 0)
      && SortedDesc(le, r.records)
      && multiset(r.records) <= multiset(Zip(docs, scores))
      && (exists full :: StableSortDescOf(le, full, Zip(docs, scores)) && |r.records| <= |full| && r.records == full[..|r.records|])
      && (topK >= n ==> StableSortDescOf(le, r.records, Zip(docs, scores)))
  {
    assert Documents(rows).value == docs;
    assert Pairs(query, docs) == pairs;
    TopKSpec(le, Zip(docs, scores), topK);
  }

  /** The tool's default `match_count` and `top_k`. */
  const DefaultMatchCount := 15
  const DefaultTopK := 15

  /**
   * A call that leaves `match_count` and `top_k` at their defaults asks the search
   * for 15 rows and replies with the 15 best records, or with the whole stable
   * sort when fewer than 15 were scored.
   */
  lemma DefaultCallReply<E, S(!new)>(query: string, vector: E,
                                     search: (E, int) -> Outcome<seq<Row>>,
                                     predict: seq<Pair> -> Outcome<seq<S>>,
                                     le: (S, S) -> bool,
                                     rows: seq<Row>, docs: seq<string>, pairs: seq<Pair>, scores: seq<S>)
    requires TotalPreorder(le)
    requires search(vector, DefaultMatchCount) == Done(rows) && rows != []
    requires |docs| == |rows| && |pairs| == |rows|
    requires forall i :: 0 <= i < |rows| ==> "text" in rows[i] && docs[i] == rows[i]["text"]
    requires forall i :: 0 <= i < |rows| ==> pairs[i] == Pair(query, docs[i])
    requires predict(pairs) == Done(scores)
    ensures var r := SearchAndRerank(query, DefaultMatchCount, DefaultTopK, Done(vector), search, predict, le);
      && r.Ranked?
      && var n := if |scores| < |docs| then |scores| else |docs|;
      && |r.records| == (if n < 15 then n else 15)
      && SortedDesc(le, r.records)
      && (n <= 15 ==> StableSortDescOf(le, r.records, Zip(docs, scores)))
  {
    RankedReply(query, DefaultMatchCount, DefaultTopK, vector, search, predict, le, rows, docs, pairs, scores);
  }

  /**
   * The scorer sees only the pairs `[query, row['text']]`, one per retrieved row in
   * row order: two scorers that agree on those pairs give the same reply.
   */
  lemma PredictSeesQueryTextPairs<E, S>(query: string, matchCount: int, topK: int, vector: E,
                                        search: (E, int) -> Outcome<seq<Row>>,
                                        predict: seq<Pair> -> Outcome<seq<S>>,
                                        predict': seq<Pair> -> Outcome<seq<S>>,
                                        le: (S, S) -> bool,
                                        rows: seq<Row>, pairs: seq<Pair>)
    requires search(vector, matchCount) == Done(rows)
    requires |pairs| == |rows|
    requires forall i :: 0 <= i < |rows| ==> "text" in rows[i] && pairs[i] == Pair(query, rows[i]["text"])
    requires predict(pairs) == predict'(pairs)
    ensures SearchAndRerank(query, matchCount, topK, Done(vector), search, predict, le)
         == SearchAndRerank(query, matchCount, topK, Done(vector), search, predict', le)
  {
    if rows != [] {
      assert Pairs(query, Documents(rows).value) == pairs;
    }
  }

  /** The reply is a ranked list exactly when the embedding, the search, the extraction and the scorer all succeed. */
  lemma RankedOnlyOnSuccess<E, S>(query: string, matchCount: int, topK: int,
                                  embedding: Outcome<E>,
                                  search: (E, int) -> Outcome<seq<Row>>,
                                  predict: seq<Pair> -> Outcome<seq<S>>,
                                  le: (S, S) -> bool)
    ensures SearchAndRerank(query, matchCount, topK, embedding, search, predict, le).Ranked?
      <==> && embedding.Done?
           && search(embedding.value, matchCount).Done?
           && search(embedding.value, matchCount).value != []
           && Documents(search(embedding.value, matchCount).value).Done?
           && predict(Pairs(query, Documents(search(embedding.value, matchCount).value).value)).Done?
  {
  }
}
