/** The sentence endpoint: the clamp applied to the requested count and
    the all-or-nothing batch of `count` generations, in index order.
    Sentence `i` of a batch reads the store below position `Root(i)`. */
module SentenceRoute {
  import opened Wrappers
  import opened Grammars
  import opened SentenceGenerator
  import GrammarRules

  /** The largest batch the endpoint serves. */
  const MaxCount: int := 20

  /** `Math.min(parseInt(count) || 1, 20)`, with `None` for a `NaN` parse.
      Only falsy values fall back to 1, so `NaN` and 0 become 1 while a
      negative count passes through untouched. */
  function ClampCount(parsed: Option<int>): (n: int)
    ensures n <= MaxCount && n != 0
    ensures parsed.None? || parsed == Some(0) ==> n == 1
    ensures parsed.Some? && 1 <= parsed.value <= MaxCount ==> n == parsed.value
    ensures parsed.Some? && parsed.value > MaxCount ==> n == MaxCount
    ensures parsed.Some? && parsed.value < 0 ==> n == parsed.value
  {
    var requested := match parsed
      case None => 1
      case Some(v) => if v == 0 then 1 else v;
    if requested <= MaxCount then requested else MaxCount
  }

  /** Clamping a clamped count changes nothing. */
  lemma ClampCountIdempotent(parsed: Option<int>)
    ensures ClampCount(Some(ClampCount(parsed))) == ClampCount(parsed)
  {
  }

  /** `Array.from({ length: count })` makes `max(count, 0)` slots. */
  function BatchLength(count: int): (n: nat)
    ensures count > 0 ==> n == count
    ensures count <= 0 ==> n == 0
  {
    if count > 0 then count else 0
  }

  /** Sentences `i` to `n - 1` of a batch: all of them in index order, or
      a failure as soon as one of them fails. */
  function GenerateFrom(g: Grammar, ghost rank: map<string, nat>, st: Store, i: nat, n: nat): (r: Result<seq<string>, Error>)
    requires Ranked(g, rank) && ValidRandom(st)
    requires i <= n
    ensures r.Success? ==> |r.value| == n - i
    ensures r.Success? ==> forall j :: i <= j < n ==> GenerateSentence(g, rank, st, Root(j)) == Success(r.value[j - i])
    ensures r.Failure? <==> exists j :: i <= j < n && GenerateSentence(g, rank, st, Root(j)).Failure?
    decreases n - i
  {
    if i == n then Success([])
    else
      match GenerateSentence(g, rank, st, Root(i))
      case Failure(e) => Failure(e)
      case Success(sentence) =>
        match GenerateFrom(g, rank, st, i + 1, n)
        case Failure(e) => Failure(e)
        case Success(rest) => Success([sentence] + rest)
  }

  /** The `Promise.all` over `count` generations. */
  function GenerateBatch(g: Grammar, ghost rank: map<string, nat>, st: Store, count: int): (r: Result<seq<string>, Error>)
    requires Ranked(g, rank) && ValidRandom(st)
    ensures r.Success? ==> |r.value| == BatchLength(count)
    ensures r.Success? ==> forall j :: 0 <= j < BatchLength(count) ==> GenerateSentence(g, rank, st, Root(j)) == Success(r.value[j])
    ensures r.Failure? <==> exists j :: 0 <= j < BatchLength(count) && GenerateSentence(g, rank, st, Root(j)).Failure?
  {
    GenerateFrom(g, rank, st, 0, BatchLength(count))
  }

  /** What the endpoint answers: the clamped count with the sentences, or
      a generic failure (HTTP 500) carrying no partial list. */
  datatype Response = Sentences(count: int, sentences: seq<string>) | InternalError

  /** The request handler over the parsed `count` query parameter. */
  function HandleRequest(g: Grammar, ghost rank: map<string, nat>, st: Store, parsed: Option<int>): (r: Response)
    requires Ranked(g, rank) && ValidRandom(st)
    ensures r.Sentences? ==> r.count == ClampCount(parsed) && |r.sentences| == BatchLength(ClampCount(parsed))
    ensures r.Sentences? ==> forall j :: 0 <= j < |r.sentences| ==> GenerateSentence(g, rank, st, Root(j)) == Success(r.sentences[j])
    ensures r.InternalError? <==> exists j :: 0 <= j < BatchLength(ClampCount(parsed)) && GenerateSentence(g, rank, st, Root(j)).Failure?
  {
    var count := ClampCount(parsed);
    match GenerateBatch(g, rank, st, count)
    case Success(sentences) => Sentences(count, sentences)
    case Failure(_) => InternalError
  }

  /** A missing, non-numeric or zero count is served as one sentence. */
  lemma DefaultsToOne(g: Grammar, rank: map<string, nat>, st: Store, parsed: Option<int>)
    requires Ranked(g, rank) && ValidRandom(st)
    requires parsed.None? || parsed == Some(0)
    ensures var r := HandleRequest(g, rank, st, parsed);
            r.Sentences? ==> r.count == 1 && |r.sentences| == 1
  {
  }

  /** A count above the limit is served as exactly twenty sentences. */
  lemma CapsAtTwenty(g: Grammar, rank: map<string, nat>, st: Store, n: int)
    requires Ranked(g, rank) && ValidRandom(st)
    requires n > MaxCount
    ensures var r := HandleRequest(g, rank, st, Some(n));
            r.Sentences? ==> r.count == MaxCount && |r.sentences| == MaxCount
  {
  }

  /** A negative count is echoed back with no sentences and no generation
      is attempted, so it never fails. */
  lemma NegativeCountGeneratesNothing(g: Grammar, rank: map<string, nat>, st: Store, n: int)
    requires Ranked(g, rank) && ValidRandom(st)
    requires n < 0
    ensures HandleRequest(g, rank, st, Some(n)) == Sentences(n, [])
  {
  }

  /** With the shipped grammar and a store that answers every query, every
      request is served, each sentence ending in a period. */
  lemma ShippedRequestSucceeds(st: Store, parsed: Option<int>)
    requires ValidRandom(st) && Available(st)
    ensures && Ranked(GrammarRules.Shipped, GrammarRules.ShippedRank)
            && HandleRequest(GrammarRules.Shipped, GrammarRules.ShippedRank, st, parsed).Sentences?
  {
    GrammarRules.ShippedWellFormed();
    var g, rank := GrammarRules.Shipped, GrammarRules.ShippedRank;
    forall j: nat
      ensures GenerateSentence(g, rank, st, Root(j)).Success?
    {
      GenerateSentenceSucceeds(g, rank, st, Root(j));
    }
  }
}
