/** The grammar types: the seven word categories, a grammar table mapping
    each nonterminal to its alternatives, the three-way classification of
    a symbol, and the well-formedness conditions expansion relies on. */
module Grammars {
  import opened Wrappers
  import opened Text

  /** The closed set of word categories; each names one word set in the store. */
  datatype Category = Nouns | Verbs | Adjectives | Adverbs | Determiners | Prepositions | Conjunctions

  /** The store key (and grammar spelling) of a category. */
  function CategoryName(c: Category): string
  {
    match c
    case Nouns => "nouns"
    case Verbs => "verbs"
    case Adjectives => "adjectives"
    case Adverbs => "adverbs"
    case Determiners => "determiners"
    case Prepositions => "prepositions"
    case Conjunctions => "conjunctions"
  }

  /** The category a name spells, if any. */
  function ParseCategory(name: string): (r: Option<Category>)
    ensures r.Some? ==> CategoryName(r.value) == name
    ensures (exists c :: CategoryName(c) == name) ==> r.Some?
  {
    if name == "nouns" then Some(Nouns)
    else if name == "verbs" then Some(Verbs)
    else if name == "adjectives" then Some(Adjectives)
    else if name == "adverbs" then Some(Adverbs)
    else if name == "determiners" then Some(Determiners)
    else if name == "prepositions" then Some(Prepositions)
    else if name == "conjunctions" then Some(Conjunctions)
    else None
  }

  /** Parsing a category's own name gives the category back. */
  lemma ParseCategoryName(c: Category)
    ensures ParseCategory(CategoryName(c)) == Some(c)
  {
  }

  /** A grammar: nonterminal name to its ordered alternatives, each a
      space-separated list of symbols. */
  type Grammar = map<string, seq<string>>

  /** The start symbol every sentence is expanded from. */
  const Start: string := "S"

  /** `symbol.startsWith("{") && symbol.endsWith("}")`. A lone `{` fails
      the second test, so the shortest bracketed symbol is `{}`, whose
      category is empty. */
  predicate IsBracketed(s: string)
  {
    |s| >= 1 && s[0] == '{' && s[|s| - 1] == '}'
  }

  /** `symbol.slice(1, -1)`: drop the first and the last character; for a
      string shorter than two characters the slice is empty. */
  function CategoryOf(s: string): (c: string)
    ensures |s| >= 2 ==> s == [s[0]] + c + [s[|s| - 1]]
    ensures |s| < 2 ==> c == ""
  {
    if |s| >= 2 then s[1..|s| - 1] else ""
  }

  /** How a category is written inside a production: `{name}`. */
  function Bracket(name: string): string
  {
    "{" + name + "}"
  }

  /** The text emitted when a category has no words: `[name]`, with square
      brackets, not the braces it was written with. */
  function Placeholder(name: string): (p: string)
    ensures |p| == |name| + 2 && p[0] == '[' && p[|p| - 1] == ']'
    ensures !IsBracketed(p)
  {
    "[" + name + "]"
  }

  /** Stripping the braces of a bracketed symbol gives back the name. */
  lemma BracketRoundTrip(name: string)
    ensures IsBracketed(Bracket(name))
    ensures CategoryOf(Bracket(name)) == name
  {
    var b := Bracket(name);
    assert b[1..|b| - 1] == name;
  }

  /** The three ways a symbol is read. */
  datatype SymbolKind =
    | CategoryRef(category: string)
    | Nonterminal(name: string)
    | Literal(text: string)

  /** The classification the generator applies before expanding: a
      bracketed symbol is a category reference (even when the grammar
      also has it as a key), otherwise a key of the grammar is a
      nonterminal, and anything else is a literal. */
  function Classify(g: Grammar, s: string): (k: SymbolKind)
    ensures k.CategoryRef? <==> IsBracketed(s)
    ensures k.CategoryRef? ==> k.category == CategoryOf(s)
    ensures k.Nonterminal? <==> !IsBracketed(s) && s in g
    ensures k.Nonterminal? ==> k.name == s
    ensures k.Literal? <==> !IsBracketed(s) && s !in g
    ensures k.Literal? ==> k.text == s
  {
    if IsBracketed(s) then CategoryRef(CategoryOf(s))
    else if s in g then Nonterminal(s)
    else Literal(s)
  }

  predicate IsNonterminal(g: Grammar, s: string)
  {
    !IsBracketed(s) && s in g
  }

  /** The symbols of alternative `i` of nonterminal `k`. */
  function Parts(g: Grammar, k: string, i: nat): seq<string>
    requires k in g && i < |g[k]|
  {
    Split(g[k][i], ' ')
  }

  /** `rank` witnesses that `g` is acyclic: every nonterminal has a rank,
      and every nonterminal occurring in one of its alternatives has a
      strictly smaller rank. */
  ghost predicate Ranked(g: Grammar, rank: map<string, nat>)
  {
    && g.Keys <= rank.Keys
    && forall k, i, j :: k in g && 0 <= i < |g[k]| && 0 <= j < |Parts(g, k, i)| && IsNonterminal(g, Parts(g, k, i)[j])
                         ==> Parts(g, k, i)[j] in rank && rank[Parts(g, k, i)[j]] < rank[k]
  }

  /** No nonterminal reaches itself. */
  ghost predicate Acyclic(g: Grammar)
  {
    exists rank :: Ranked(g, rank)
  }

  /** The termination measure of expansion: a nonterminal sits one above
      its rank, every other symbol at zero. */
  function Height(g: Grammar, rank: map<string, nat>, s: string): nat
  {
    if IsNonterminal(g, s) && s in rank then rank[s] + 1 else 0
  }

  /** Every nonterminal has at least one alternative to choose from. */
  predicate NonEmptyRules(g: Grammar)
  {
    forall k :: k in g ==> |g[k]| > 0
  }

  /** Every symbol of every alternative is a nonterminal or a bracketed
      reference to a known category, so no raw literal reaches the output. */
  predicate Closed(g: Grammar)
  {
    forall k, i, j :: k in g && 0 <= i < |g[k]| && 0 <= j < |Parts(g, k, i)| ==>
      IsNonterminal(g, Parts(g, k, i)[j])
      || (IsBracketed(Parts(g, k, i)[j]) && ParseCategory(CategoryOf(Parts(g, k, i)[j])).Some?)
  }

  /** Everything expansion of the start symbol needs from a grammar. */
  ghost predicate WellFormed(g: Grammar, rank: map<string, nat>)
  {
    && Start in g
    && NonEmptyRules(g)
    && Closed(g)
    && Ranked(g, rank)
  }
}
