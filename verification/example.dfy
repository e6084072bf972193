/** A worked derivation: a three-rule grammar and a store that returns
    "the", "fox" and "jumps" for determiners, nouns and verbs produce the
    sentence "The fox jumps.". */
module Example {
  import opened Wrappers
  import opened Text
  import opened Grammars
  import opened SentenceGenerator

  const Tiny: Grammar := map[
    "S" := ["NP VP"],
    "NP" := ["Det Noun"],
    "VP" := ["Verb"],
    "Det" := ["{determiners}"],
    "Noun" := ["{nouns}"],
    "Verb" := ["{verbs}"]
  ]

  const TinyRank: map<string, nat> := map["S" := 2, "NP" := 1, "VP" := 1, "Det" := 0, "Noun" := 0, "Verb" := 0]

  function Words(p: Path, name: string): Reply
  {
    if name == "determiners" then Member("the")
    else if name == "nouns" then Member("fox")
    else if name == "verbs" then Member("jumps")
    else Nil
  }

  const Fixed: Store := Store(p => 0.0, Words)

  const TinySymbols: map<string, seq<string>> := map[
    "S" := ["NP", "VP"],
    "NP" := ["Det", "Noun"],
    "VP" := ["Verb"],
    "Det" := ["{determiners}"],
    "Noun" := ["{nouns}"],
    "Verb" := ["{verbs}"]
  ]

  lemma TinyParts(k: string)
    requires k in Tiny
    ensures |Tiny[k]| == 1 && k in TinySymbols && Parts(Tiny, k, 0) == TinySymbols[k]
  {
    var syms := TinySymbols[k];
    if k == "S" {
      assert Join(["NP", "VP"], ' ') == "NP VP";
    } else if k == "NP" {
      assert Join(["Det", "Noun"], ' ') == "Det Noun";
    }
    assert Join(syms, ' ') == Tiny[k][0];
    SplitJoin(syms, ' ');
  }

  lemma TinyRanked()
    ensures Ranked(Tiny, TinyRank)
  {
    forall k, i, j | k in Tiny && 0 <= i < |Tiny[k]| && 0 <= j < |Parts(Tiny, k, i)| && IsNonterminal(Tiny, Parts(Tiny, k, i)[j])
      ensures Parts(Tiny, k, i)[j] in TinyRank && TinyRank[Parts(Tiny, k, i)[j]] < TinyRank[k]
    {
      TinyParts(k);
      TinyFits(k);
    }
  }

  lemma TinyFits(k: string)
    requires k in TinySymbols
    ensures k in TinyRank
    ensures forall j :: 0 <= j < |TinySymbols[k]| && IsNonterminal(Tiny, TinySymbols[k][j]) ==>
              TinySymbols[k][j] in TinyRank && TinyRank[TinySymbols[k][j]] < TinyRank[k]
  {
  }

  lemma TinyLeaves()
    ensures TinySymbols["Det"] == [Bracket("determiners")]
    ensures TinySymbols["Noun"] == [Bracket("nouns")]
    ensures TinySymbols["Verb"] == [Bracket("verbs")]
  {
    assert Bracket("determiners") == "{determiners}";
    assert Bracket("nouns") == "{nouns}";
    assert Bracket("verbs") == "{verbs}";
  }

  /** The draw 0.0 picks the only alternative of every key, and that
      alternative splits into the symbols listed for it. */
  lemma TinyPick(path: Path, k: string)
    requires k in Tiny
    ensures ValidRandom(Fixed) && IsNonterminal(Tiny, k) && |Tiny[k]| == 1 && k in TinySymbols
    ensures Parts(Tiny, k, ChooseIndex(Fixed.random(path), |Tiny[k]|)) == TinySymbols[k]
  {
    TinyParts(k);
    assert !IsBracketed(k);
  }

  /** Composition for a one-symbol alternative. */
  lemma ExpandSingle(g: Grammar, rank: map<string, nat>, st: Store, path: Path, symbol: string, p0: string, w0: string)
    requires Ranked(g, rank) && ValidRandom(st)
    requires IsNonterminal(g, symbol) && |g[symbol]| > 0
    requires Parts(g, symbol, ChooseIndex(st.random(path), |g[symbol]|)) == [p0]
    requires Expand(g, rank, st, Child(path, 0), p0) == Success(w0)
    ensures Expand(g, rank, st, path, symbol) == Success(w0)
  {
    ExpandCompose(g, rank, st, path, symbol, [w0]);
  }

  /** Composition for a two-symbol alternative. */
  lemma ExpandPair(g: Grammar, rank: map<string, nat>, st: Store, path: Path, symbol: string, p0: string, p1: string, w0: string, w1: string)
    requires Ranked(g, rank) && ValidRandom(st)
    requires IsNonterminal(g, symbol) && |g[symbol]| > 0
    requires Parts(g, symbol, ChooseIndex(st.random(path), |g[symbol]|)) == [p0, p1]
    requires Expand(g, rank, st, Child(path, 0), p0) == Success(w0)
    requires Expand(g, rank, st, Child(path, 1), p1) == Success(w1)
    ensures Expand(g, rank, st, path, symbol) == Success(w0 + " " + w1)
  {
    var parts := [p0, p1];
    var words := [w0, w1];
    forall j | 0 <= j < |parts|
      ensures ExpandPart(g, rank, st, path, parts, j) == Success(words[j])
    {
      if j == 0 {} else {}
    }
    ExpandCompose(g, rank, st, path, symbol, words);
    assert Join(words, ' ') == w0 + [' '] + w1;
  }

  /** A key whose one alternative is a category leaf expands to the word
      the store gives for that category. */
  lemma LeafRule(path: Path, key: string, name: string, word: string)
    requires key in Tiny && TinySymbols[key] == [Bracket(name)]
    requires Words(Child(path, 0), name) == Member(word)
    ensures Ranked(Tiny, TinyRank) && ValidRandom(Fixed)
    ensures Expand(Tiny, TinyRank, Fixed, path, key) == Success(word)
  {
    TinyRanked();
    TinyPick(path, key);
    BracketRoundTrip(name);
    ExpandSingle(Tiny, TinyRank, Fixed, path, key, Bracket(name), word);
  }

  /** A key of the tiny grammar whose alternative is two symbols expands
      to their expansions joined by a space. The key is a parameter so
      that the split of its alternative is reasoned about symbolically. */
  lemma TinyPair(path: Path, key: string, k0: string, k1: string, w0: string, w1: string)
    requires key in Tiny && TinySymbols[key] == [k0, k1]
    requires Ranked(Tiny, TinyRank) && ValidRandom(Fixed)
    requires Expand(Tiny, TinyRank, Fixed, Child(path, 0), k0) == Success(w0)
    requires Expand(Tiny, TinyRank, Fixed, Child(path, 1), k1) == Success(w1)
    ensures Expand(Tiny, TinyRank, Fixed, path, key) == Success(w0 + " " + w1)
  {
    TinyPick(path, key);
    ExpandPair(Tiny, TinyRank, Fixed, path, key, k0, k1, w0, w1);
  }

  /** The same for a one-symbol alternative. */
  lemma TinySingle(path: Path, key: string, k0: string, w0: string)
    requires key in Tiny && TinySymbols[key] == [k0]
    requires Ranked(Tiny, TinyRank) && ValidRandom(Fixed)
    requires Expand(Tiny, TinyRank, Fixed, Child(path, 0), k0) == Success(w0)
    ensures Expand(Tiny, TinyRank, Fixed, path, key) == Success(w0)
  {
    TinyPick(path, key);
    ExpandSingle(Tiny, TinyRank, Fixed, path, key, k0, w0);
  }

  lemma NounPhraseLeaves(path: Path)
    ensures Ranked(Tiny, TinyRank) && ValidRandom(Fixed)
    ensures Expand(Tiny, TinyRank, Fixed, Child(path, 0), "Det") == Success("the")
    ensures Expand(Tiny, TinyRank, Fixed, Child(path, 1), "Noun") == Success("fox")
  {
    TinyLeaves();
    LeafRule(Child(path, 0), "Det", "determiners", "the");
    LeafRule(Child(path, 1), "Noun", "nouns", "fox");
  }

  lemma NounPhrase(path: Path)
    ensures Ranked(Tiny, TinyRank) && ValidRandom(Fixed)
    ensures Expand(Tiny, TinyRank, Fixed, path, "NP") == Success("the fox")
  {
    NounPhraseLeaves(path);
    TinyPair(path, "NP", "Det", "Noun", "the", "fox");
    Spelled();
  }

  lemma VerbPhrase(path: Path)
    ensures Ranked(Tiny, TinyRank) && ValidRandom(Fixed)
    ensures Expand(Tiny, TinyRank, Fixed, path, "VP") == Success("jumps")
  {
    TinyRanked();
    TinyLeaves();
    LeafRule(Child(path, 0), "Verb", "verbs", "jumps");
    TinySingle(path, "VP", "Verb", "jumps");
  }

  /** The worked example yields exactly "The fox jumps.", at any position
      of a batch. */
  lemma FoxJumps(root: Path)
    ensures Ranked(Tiny, TinyRank) && ValidRandom(Fixed)
    ensures GenerateSentence(Tiny, TinyRank, Fixed, root) == Success("The fox jumps.")
  {
    TinyRanked();
    NounPhrase(Child(root, 0));
    VerbPhrase(Child(root, 1));
    TinyPair(root, Start, "NP", "VP", "the fox", "jumps");
    Spelled();
    CapitalizeThe();
  }

  lemma Spelled()
    ensures "the" + " " + "fox" == "the fox"
    ensures "the fox" + " " + "jumps" == "the fox jumps"
  {
  }

  lemma CapitalizeThe()
    ensures Capitalize("the fox jumps") + "." == "The fox jumps."
  {
    var s := "the fox jumps";
    assert ToUpperAscii('t') == 'T';
    assert Capitalize(s) == ['T'] + s[1..];
  }
}
