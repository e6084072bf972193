/** The sentence generator: recursive expansion of a symbol against a
    grammar, with the two effects of the original made into parameters.
    A `Store` supplies, for each position in the derivation, the random
    number used to pick an alternative and the reply of the word store's
    "random member" query. A position is the path of child indices from
    the root of one sentence's derivation, so sibling expansions read
    disjoint parts of the store and can be evaluated in any order. */
module SentenceGenerator {
  import opened Wrappers
  import opened Text
  import opened Grammars

  /** A position in a derivation: child indices from the root. */
  type Path = seq<nat>

  /** The position of part `j` of the alternative expanded at `path`. */
  function Child(path: Path, j: nat): (c: Path)
    ensures |c| == |path| + 1 && c[..|path|] == path && c[|path|] == j
  {
    path + [j]
  }

  /** The position of sentence `i` of a batch. */
  function Root(i: nat): (p: Path)
    ensures |p| == 1 && p[0] == i
  {
    [i]
  }

  /** A reply of the store's "random member of set" query: a word, nothing
      (the set is empty or absent), or a failed request. */
  datatype Reply = Member(word: string) | Nil | Unreachable

  /** The effects expansion consumes, indexed by derivation position:
      `random` is the draw from [0, 1) that picks an alternative and
      `randMember` answers the word query for a category name. */
  datatype Store = Store(random: Path -> real, randMember: (Path, string) -> Reply)

  /** Why expansion can fail: the store rejected a query, or a
      nonterminal had no alternative to pick (indexing an empty list
      yields `undefined`, and splitting it throws). */
  datatype Error = StoreUnavailable | EmptyRuleList(symbol: string)

  /** Every random draw lies in [0, 1). */
  ghost predicate ValidRandom(st: Store)
  {
    forall p :: 0.0 <= st.random(p) < 1.0
  }

  /** A word bank: the words stored for each category. */
  type WordBank = map<Category, set<string>>

  /** The words stored under a key; a key naming no category, or a
      category with no entry, holds no words. */
  function Members(bank: WordBank, name: string): set<string>
  {
    match ParseCategory(name)
    case Some(c) => if c in bank then bank[c] else {}
    case None => {}
  }

  /** The store answers word queries from `bank`: a word returned is a
      member of the named set, and "nothing" is returned only for an
      empty set. */
  ghost predicate AnswersFrom(st: Store, bank: WordBank)
  {
    forall p, name :: match st.randMember(p, name)
      case Member(w) => w in Members(bank, name)
      case Nil => Members(bank, name) == {}
      case Unreachable => true
  }

  /** The store never rejects a query. */
  ghost predicate Available(st: Store)
  {
    forall p, name :: !st.randMember(p, name).Unreachable?
  }

  /** `Math.floor(x * n)`: the alternative picked by the draw `x`. */
  function ChooseIndex(x: real, n: nat): (i: nat)
    requires 0.0 <= x < 1.0 && 0 < n
    ensures i < n
    ensures i as real <= x * n as real < (i + 1) as real
  {
    ScaleBounds(x, n);
    (x * n as real).Floor
  }

  lemma ScaleBounds(x: real, n: nat)
    requires 0.0 <= x < 1.0 && 0 < n
    ensures 0.0 <= x * n as real < n as real
  {
  }

  /** Every alternative can be picked: the draw `i / n` picks index `i`. */
  lemma ChooseIndexReaches(i: nat, n: nat)
    requires i < n
    ensures 0.0 <= i as real / n as real < 1.0
    ensures ChooseIndex(i as real / n as real, n) == i
  {
    var x := i as real / n as real;
    assert x * n as real == i as real;
  }

  /** Expansion of one symbol at position `path`.
      A bracketed symbol becomes the word the store returns for its
      category, or `[category]` when there is none; a nonterminal picks
      one alternative and expands its parts left to right, joined with
      single spaces; anything else is emitted as it is. */
  function Expand(g: Grammar, ghost rank: map<string, nat>, st: Store, path: Path, symbol: string): (r: Result<string, Error>)
    requires Ranked(g, rank) && ValidRandom(st)
    ensures IsBracketed(symbol) && st.randMember(path, CategoryOf(symbol)).Member?
            ==> r == Success(st.randMember(path, CategoryOf(symbol)).word)
    ensures IsBracketed(symbol) && st.randMember(path, CategoryOf(symbol)).Nil?
            ==> r == Success(Placeholder(CategoryOf(symbol)))
    ensures IsBracketed(symbol) && st.randMember(path, CategoryOf(symbol)).Unreachable?
            ==> r == Failure(StoreUnavailable)
    ensures !IsBracketed(symbol) && symbol !in g ==> r == Success(symbol)
    ensures r.Failure? && r.error.EmptyRuleList? ==> r.error.symbol in g && |g[r.error.symbol]| == 0
    decreases Height(g, rank, symbol), 0
  {
    match Classify(g, symbol)
    case CategoryRef(category) =>
      (match st.randMember(path, category)
       case Member(word) => Success(word)
       case Nil => Success(Placeholder(category))
       case Unreachable => Failure(StoreUnavailable))
    case Literal(text) => Success(text)
    case Nonterminal(name) =>
      var rules := g[name];
      if |rules| == 0 then Failure(EmptyRuleList(name))
      else
        var k := ChooseIndex(st.random(path), |rules|);
        var parts := Parts(g, name, k);
        match ExpandParts(g, rank, st, path, parts, 0, rank[name])
        case Success(words) => Success(Join(words, ' '))
        case Failure(e) => Failure(e)
  }

  /** Expansion of `parts[i..]`, part `j` at position `path + [j]`: the
      list of their expansions in order, or the failure of the leftmost
      part that fails (`ExpandPartsInOrder` states this). */
  function ExpandParts(g: Grammar, ghost rank: map<string, nat>, st: Store, path: Path,
                       parts: seq<string>, i: nat, ghost bound: nat): (r: Result<seq<string>, Error>)
    requires Ranked(g, rank) && ValidRandom(st)
    requires i <= |parts|
    requires forall j :: i <= j < |parts| ==> Height(g, rank, parts[j]) <= bound
    ensures r.Success? ==> |r.value| == |parts| - i
    ensures r.Failure? && r.error.EmptyRuleList? ==> r.error.symbol in g && |g[r.error.symbol]| == 0
    decreases bound, |parts| - i
  {
    if i == |parts| then Success([])
    else
      match Expand(g, rank, st, Child(path, i), parts[i])
      case Failure(e) => Failure(e)
      case Success(word) =>
        match ExpandParts(g, rank, st, path, parts, i + 1, bound)
        case Failure(e) => Failure(e)
        case Success(words) => Success([word] + words)
  }

  /** The expansions of `parts[i..]` come back one per part, in order,
      part `j` expanded at child position `j`. */
  lemma {:induction false} ExpandPartsInOrder(g: Grammar, rank: map<string, nat>, st: Store, path: Path,
                                              parts: seq<string>, i: nat, bound: nat)
    requires Ranked(g, rank) && ValidRandom(st)
    requires i <= |parts|
    requires forall j :: i <= j < |parts| ==> Height(g, rank, parts[j]) <= bound
    ensures var r := ExpandParts(g, rank, st, path, parts, i, bound);
            r.Success? ==> forall j :: i <= j < |parts| ==> ExpandPart(g, rank, st, path, parts, j) == Success(r.value[j - i])
    decreases |parts| - i
  {
    var r := ExpandParts(g, rank, st, path, parts, i, bound);
    if i < |parts| && r.Success? {
      ExpandPartsInOrder(g, rank, st, path, parts, i + 1, bound);
      var first := ExpandPart(g, rank, st, path, parts, i);
      assert first == Expand(g, rank, st, Child(path, i), parts[i]);
      var rest := ExpandParts(g, rank, st, path, parts, i + 1, bound);
      assert r == Success([first.value] + rest.value);
    }
  }

  /** The expansion of `parts[i..]` fails exactly when one of the parts
      fails. */
  lemma {:induction false} ExpandPartsFails(g: Grammar, rank: map<string, nat>, st: Store, path: Path,
                                            parts: seq<string>, i: nat, bound: nat)
    requires Ranked(g, rank) && ValidRandom(st)
    requires i <= |parts|
    requires forall j :: i <= j < |parts| ==> Height(g, rank, parts[j]) <= bound
    ensures ExpandParts(g, rank, st, path, parts, i, bound).Failure? <==>
              exists j :: i <= j < |parts| && ExpandPart(g, rank, st, path, parts, j).Failure?
    decreases |parts| - i
  {
    if i < |parts| {
      ExpandPartsFails(g, rank, st, path, parts, i + 1, bound);
      var first := ExpandPart(g, rank, st, path, parts, i);
      assert first == Expand(g, rank, st, Child(path, i), parts[i]);
      var r := ExpandParts(g, rank, st, path, parts, i, bound);
      var rest := ExpandParts(g, rank, st, path, parts, i + 1, bound);
      if first.Failure? {
        assert r.Failure?;
      } else {
        assert r.Failure? <==> rest.Failure?;
      }
    }
  }

  /** The expansion of part `j` of an alternative expanded at `path`. */
  function ExpandPart(g: Grammar, ghost rank: map<string, nat>, st: Store, path: Path, parts: seq<string>, j: nat): Result<string, Error>
    requires Ranked(g, rank) && ValidRandom(st) && j < |parts|
  {
    Expand(g, rank, st, Child(path, j), parts[j])
  }

  /** A nonterminal with alternatives expands to the expansions of the
      picked alternative's parts, joined with single spaces in order, and
      fails exactly when one of those parts fails. */
  lemma ExpandNonterminal(g: Grammar, rank: map<string, nat>, st: Store, path: Path, symbol: string)
    requires Ranked(g, rank) && ValidRandom(st)
    requires IsNonterminal(g, symbol) && |g[symbol]| > 0
    ensures var parts := Parts(g, symbol, ChooseIndex(st.random(path), |g[symbol]|));
            && (forall j :: 0 <= j < |parts| ==> Height(g, rank, parts[j]) < Height(g, rank, symbol))
            && (Expand(g, rank, st, path, symbol).Failure? <==>
                  exists j :: 0 <= j < |parts| && ExpandPart(g, rank, st, path, parts, j).Failure?)
            && (Expand(g, rank, st, path, symbol).Success? ==>
                  exists words: seq<string> ::
                    && |words| == |parts|
                    && (forall j :: 0 <= j < |parts| ==> ExpandPart(g, rank, st, path, parts, j) == Success(words[j]))
                    && Expand(g, rank, st, path, symbol).value == Join(words, ' '))
  {
    var parts := Parts(g, symbol, ChooseIndex(st.random(path), |g[symbol]|));
    var r := ExpandParts(g, rank, st, path, parts, 0, rank[symbol]);
    ExpandPartsInOrder(g, rank, st, path, parts, 0, rank[symbol]);
    ExpandPartsFails(g, rank, st, path, parts, 0, rank[symbol]);
    assert Classify(g, symbol) == Nonterminal(symbol);
    if r.Success? {
      assert Expand(g, rank, st, path, symbol) == Success(Join(r.value, ' '));
      assert forall j :: 0 <= j < |parts| ==> ExpandPart(g, rank, st, path, parts, j) == Success(r.value[j]);
    } else {
      assert Expand(g, rank, st, path, symbol) == Failure(r.error);
    }
  }

  /** The expansions of the picked alternative's parts determine the
      nonterminal's expansion: their join with single spaces, in order. */
  lemma ExpandCompose(g: Grammar, rank: map<string, nat>, st: Store, path: Path, symbol: string, words: seq<string>)
    requires Ranked(g, rank) && ValidRandom(st)
    requires IsNonterminal(g, symbol) && |g[symbol]| > 0
    requires var parts := Parts(g, symbol, ChooseIndex(st.random(path), |g[symbol]|));
             && |words| == |parts|
             && forall j :: 0 <= j < |parts| ==> ExpandPart(g, rank, st, path, parts, j) == Success(words[j])
    ensures Expand(g, rank, st, path, symbol) == Success(Join(words, ' '))
  {
    var parts := Parts(g, symbol, ChooseIndex(st.random(path), |g[symbol]|));
    ExpandNonterminal(g, rank, st, path, symbol);
    var r := Expand(g, rank, st, path, symbol);
    assert !(exists j :: 0 <= j < |parts| && ExpandPart(g, rank, st, path, parts, j).Failure?);
    var ws: seq<string> :| && |ws| == |parts|
                            && (forall j :: 0 <= j < |parts| ==> ExpandPart(g, rank, st, path, parts, j) == Success(ws[j]))
                            && r.value == Join(ws, ' ');
    assert ws == words;
  }

  /** With a store that never rejects a query, the only way expansion
      fails is a nonterminal without alternatives. */
  lemma {:induction false} ExpandAvailable(g: Grammar, rank: map<string, nat>, st: Store, path: Path, symbol: string)
    requires Ranked(g, rank) && ValidRandom(st) && Available(st)
    ensures Expand(g, rank, st, path, symbol).Failure? ==> Expand(g, rank, st, path, symbol).error.EmptyRuleList?
    decreases Height(g, rank, symbol), 0
  {
    if IsNonterminal(g, symbol) && |g[symbol]| > 0 {
      var parts := Parts(g, symbol, ChooseIndex(st.random(path), |g[symbol]|));
      ExpandPartsAvailable(g, rank, st, path, parts, 0, rank[symbol]);
    }
  }

  lemma {:induction false} ExpandPartsAvailable(g: Grammar, rank: map<string, nat>, st: Store, path: Path,
                                               parts: seq<string>, i: nat, bound: nat)
    requires Ranked(g, rank) && ValidRandom(st) && Available(st)
    requires i <= |parts|
    requires forall j :: i <= j < |parts| ==> Height(g, rank, parts[j]) <= bound
    ensures ExpandParts(g, rank, st, path, parts, i, bound).Failure? ==>
              ExpandParts(g, rank, st, path, parts, i, bound).error.EmptyRuleList?
    decreases bound, |parts| - i
  {
    if i < |parts| {
      ExpandAvailable(g, rank, st, Child(path, i), parts[i]);
      ExpandPartsAvailable(g, rank, st, path, parts, i + 1, bound);
    }
  }

  /** Expansion cannot fail when every nonterminal has an alternative and
      the store answers every query. */
  lemma ExpandSucceeds(g: Grammar, rank: map<string, nat>, st: Store, path: Path, symbol: string)
    requires Ranked(g, rank) && ValidRandom(st) && Available(st) && NonEmptyRules(g)
    ensures Expand(g, rank, st, path, symbol).Success?
  {
    ExpandAvailable(g, rank, st, path, symbol);
  }

  /** A bracketed symbol, read against a store that answers from `bank`,
      becomes a word of the category, or the `[category]` placeholder
      exactly when the category has no words, or a store failure. */
  lemma ExpandFromBank(g: Grammar, rank: map<string, nat>, st: Store, bank: WordBank, path: Path, symbol: string)
    requires Ranked(g, rank) && ValidRandom(st) && AnswersFrom(st, bank)
    requires IsBracketed(symbol)
    ensures var r := Expand(g, rank, st, path, symbol);
            var c := CategoryOf(symbol);
            || (r.Success? && r.value in Members(bank, c))
            || (r == Success(Placeholder(c)) && Members(bank, c) == {})
            || r == Failure(StoreUnavailable)
  {
    var c := CategoryOf(symbol);
    match st.randMember(path, c)
    case Member(w) =>
    case Nil =>
    case Unreachable =>
  }

  /** The stores agree on every position at or below `path`. */
  ghost predicate AgreeBelow(st1: Store, st2: Store, path: Path)
  {
    && (forall q :: path <= q ==> st1.random(q) == st2.random(q))
    && (forall q, name :: path <= q ==> st1.randMember(q, name) == st2.randMember(q, name))
  }

  /** Expansion at `path` reads only the store positions below `path`, so
      sibling expansions, and the sentences of one batch, are independent
      of each other and of the order they are evaluated in. */
  lemma {:induction false} ExpandLocal(g: Grammar, rank: map<string, nat>, st1: Store, st2: Store, path: Path, symbol: string)
    requires Ranked(g, rank) && ValidRandom(st1) && ValidRandom(st2)
    requires AgreeBelow(st1, st2, path)
    ensures Expand(g, rank, st1, path, symbol) == Expand(g, rank, st2, path, symbol)
    decreases Height(g, rank, symbol), 0
  {
    assert path <= path;
    if IsNonterminal(g, symbol) && |g[symbol]| > 0 {
      assert st1.random(path) == st2.random(path);
      var parts := Parts(g, symbol, ChooseIndex(st1.random(path), |g[symbol]|));
      ExpandPartsLocal(g, rank, st1, st2, path, parts, 0, rank[symbol]);
    }
  }

  lemma {:induction false} ExpandPartsLocal(g: Grammar, rank: map<string, nat>, st1: Store, st2: Store, path: Path,
                                           parts: seq<string>, i: nat, bound: nat)
    requires Ranked(g, rank) && ValidRandom(st1) && ValidRandom(st2)
    requires AgreeBelow(st1, st2, path)
    requires i <= |parts|
    requires forall j :: i <= j < |parts| ==> Height(g, rank, parts[j]) <= bound
    ensures ExpandParts(g, rank, st1, path, parts, i, bound) == ExpandParts(g, rank, st2, path, parts, i, bound)
    decreases bound, |parts| - i
  {
    if i < |parts| {
      AgreeBelowChild(st1, st2, path, i);
      ExpandLocal(g, rank, st1, st2, Child(path, i), parts[i]);
      ExpandPartsLocal(g, rank, st1, st2, path, parts, i + 1, bound);
    }
  }

  lemma AgreeBelowChild(st1: Store, st2: Store, path: Path, i: nat)
    requires AgreeBelow(st1, st2, path)
    ensures AgreeBelow(st1, st2, Child(path, i))
  {
    forall q | Child(path, i) <= q
      ensures st1.random(q) == st2.random(q)
    {
      assert q[..|path|] == Child(path, i)[..|path|];
    }
    forall q, name | Child(path, i) <= q
      ensures st1.randMember(q, name) == st2.randMember(q, name)
    {
      assert q[..|path|] == Child(path, i)[..|path|];
    }
  }

  /** `generateSentence`: expand the start symbol, capitalise the first
      character and append a period. The sentence fails exactly when the
      expansion does. */
  function GenerateSentence(g: Grammar, ghost rank: map<string, nat>, st: Store, root: Path): (r: Result<string, Error>)
    requires Ranked(g, rank) && ValidRandom(st)
    ensures r.Success? <==> Expand(g, rank, st, root, Start).Success?
    ensures r.Failure? ==> r.error == Expand(g, rank, st, root, Start).error
    ensures r.Success? ==>
              var e := Expand(g, rank, st, root, Start).value;
              && |r.value| == |e| + 1
              && r.value[|e|] == '.'
              && (|e| > 0 ==> r.value[0] == ToUpperAscii(e[0]))
              && (forall i :: 1 <= i < |e| ==> r.value[i] == e[i])
  {
    match Expand(g, rank, st, root, Start)
    case Success(sentence) => Success(Capitalize(sentence) + ".")
    case Failure(e) => Failure(e)
  }

  /** Over a well-formed grammar and a store that answers every query,
      a sentence is always produced. */
  lemma GenerateSentenceSucceeds(g: Grammar, rank: map<string, nat>, st: Store, root: Path)
    requires WellFormed(g, rank) && ValidRandom(st) && Available(st)
    ensures GenerateSentence(g, rank, st, root).Success?
    ensures |GenerateSentence(g, rank, st, root).value| >= 1
  {
    ExpandSucceeds(g, rank, st, root, Start);
  }
}
