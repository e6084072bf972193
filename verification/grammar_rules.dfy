/** The grammar the service ships, and the well-formedness facts the
    generator silently depends on, proved about that one value. */
module GrammarRules {
  import opened Text
  import opened Grammars

  /** The shipped grammar table, alternative strings as written. */
  const Shipped: Grammar := map[
    "S" := ["SimpleSentence", "SimpleSentence Conjunction SimpleSentence"],
    "SimpleSentence" := ["NP VP", "NP VP PP"],
    "NP" := ["Det Adj Noun", "Det Noun"],
    "VP" := ["Verb NP", "Verb Adv", "Verb"],
    "PP" := ["Prep NP"],
    "Det" := ["{determiners}"],
    "Noun" := ["{nouns}"],
    "Verb" := ["{verbs}"],
    "Adj" := ["{adjectives}"],
    "Adv" := ["{adverbs}"],
    "Prep" := ["{prepositions}"],
    "Conjunction" := ["{conjunctions}"]
  ]

  /** The same table with every alternative already split into symbols. */
  const ShippedSymbols: map<string, seq<seq<string>>> := map[
    "S" := [["SimpleSentence"], ["SimpleSentence", "Conjunction", "SimpleSentence"]],
    "SimpleSentence" := [["NP", "VP"], ["NP", "VP", "PP"]],
    "NP" := [["Det", "Adj", "Noun"], ["Det", "Noun"]],
    "VP" := [["Verb", "NP"], ["Verb", "Adv"], ["Verb"]],
    "PP" := [["Prep", "NP"]],
    "Det" := [["{determiners}"]],
    "Noun" := [["{nouns}"]],
    "Verb" := [["{verbs}"]],
    "Adj" := [["{adjectives}"]],
    "Adv" := [["{adverbs}"]],
    "Prep" := [["{prepositions}"]],
    "Conjunction" := [["{conjunctions}"]]
  ]

  /** Ranks witnessing that the shipped grammar is acyclic: each
      nonterminal sits above every nonterminal its alternatives mention. */
  const ShippedRank: map<string, nat> := map[
    "S" := 4, "SimpleSentence" := 3, "VP" := 2, "PP" := 2, "NP" := 1,
    "Det" := 0, "Noun" := 0, "Verb" := 0, "Adj" := 0, "Adv" := 0, "Prep" := 0, "Conjunction" := 0
  ]

  /** The keys whose alternatives mention other keys; the rest are the
      seven category leaves. */
  const PhraseKeys: set<string> := {"S", "SimpleSentence", "NP", "VP", "PP"}

  /** The category each leaf key stands for. */
  const LeafCategory: map<string, Category> := map[
    "Det" := Determiners, "Noun" := Nouns, "Verb" := Verbs, "Adj" := Adjectives,
    "Adv" := Adverbs, "Prep" := Prepositions, "Conjunction" := Conjunctions
  ]

  /** A symbol of an alternative of `k` is either a nonterminal ranked
      below `k` or a bracketed reference to a known category. */
  predicate SymbolFits(k: string, s: string)
    requires k in ShippedRank
  {
    || (IsNonterminal(Shipped, s) && s in ShippedRank && ShippedRank[s] < ShippedRank[k])
    || (IsBracketed(s) && ParseCategory(CategoryOf(s)).Some?)
  }

  /** Splitting each shipped alternative on spaces gives the symbols
      listed for it. */
  lemma ShippedParts(k: string, i: nat)
    requires k in Shipped && i < |Shipped[k]|
    ensures k in ShippedSymbols && i < |ShippedSymbols[k]|
    ensures Parts(Shipped, k, i) == ShippedSymbols[k][i]
  {
    ShippedJoins(k, i);
    SplitJoin(ShippedSymbols[k][i], ' ');
  }

  /** Each listed symbol sequence is space-free and joins, with single
      spaces, into the alternative as written. */
  lemma ShippedJoins(k: string, i: nat)
    requires k in Shipped && i < |Shipped[k]|
    ensures k in ShippedSymbols && i < |ShippedSymbols[k]|
    ensures |ShippedSymbols[k][i]| >= 1
    ensures forall j :: 0 <= j < |ShippedSymbols[k][i]| ==> ' ' !in ShippedSymbols[k][i][j]
    ensures Join(ShippedSymbols[k][i], ' ') == Shipped[k][i]
  {
    if k in PhraseKeys {
      PhraseJoins(k, i);
    } else {
      LeafJoins(k, i);
    }
  }

  lemma PhraseJoins(k: string, i: nat)
    requires k in PhraseKeys
    requires k in Shipped && i < |Shipped[k]|
    ensures k in ShippedSymbols && i < |ShippedSymbols[k]|
    ensures |ShippedSymbols[k][i]| >= 1
    ensures forall j :: 0 <= j < |ShippedSymbols[k][i]| ==> ' ' !in ShippedSymbols[k][i][j]
    ensures Join(ShippedSymbols[k][i], ' ') == Shipped[k][i]
  {
    if k == "S" {
      JoinsS(i);
    } else if k == "SimpleSentence" {
      JoinsSimpleSentence(i);
    } else if k == "NP" {
      JoinsNP(i);
    } else if k == "VP" {
      JoinsVP(i);
    } else if k == "PP" {
      JoinsPP(i);
    }
  }

  lemma LeafJoins(k: string, i: nat)
    requires k !in PhraseKeys
    requires k in Shipped && i < |Shipped[k]|
    ensures k in ShippedSymbols && i < |ShippedSymbols[k]|
    ensures |ShippedSymbols[k][i]| >= 1
    ensures forall j :: 0 <= j < |ShippedSymbols[k][i]| ==> ' ' !in ShippedSymbols[k][i][j]
    ensures Join(ShippedSymbols[k][i], ' ') == Shipped[k][i]
  {
    LeafShape(k);
    CategoryLeafJoins(k, LeafCategory[k]);
  }

  /** Every listed symbol of an alternative of `k` fits. */
  lemma ShippedFits(k: string)
    requires k in ShippedSymbols
    ensures k in ShippedRank
    ensures forall i, j :: 0 <= i < |ShippedSymbols[k]| && 0 <= j < |ShippedSymbols[k][i]| ==>
              SymbolFits(k, ShippedSymbols[k][i][j])
  {
    if k in PhraseKeys {
      PhraseFits(k);
    } else {
      LeafFits(k);
    }
  }

  lemma PhraseFits(k: string)
    requires k in PhraseKeys
    requires k in ShippedSymbols
    ensures k in ShippedRank
    ensures forall i, j :: 0 <= i < |ShippedSymbols[k]| && 0 <= j < |ShippedSymbols[k][i]| ==>
              SymbolFits(k, ShippedSymbols[k][i][j])
  {
    if k == "S" {
      FitsS();
    } else if k == "SimpleSentence" {
      FitsSimpleSentence();
    } else if k == "NP" {
      FitsNP();
    } else if k == "VP" {
      FitsVP();
    } else if k == "PP" {
      FitsPP();
    }
  }

  lemma LeafFits(k: string)
    requires k !in PhraseKeys
    requires k in ShippedSymbols
    ensures k in ShippedRank
    ensures forall i, j :: 0 <= i < |ShippedSymbols[k]| && 0 <= j < |ShippedSymbols[k][i]| ==>
              SymbolFits(k, ShippedSymbols[k][i][j])
  {
    LeafShape(k);
    CategoryLeafFits(k, LeafCategory[k]);
  }

  /** Each leaf key has the one alternative `{name}` of its category,
      in both tables. */
  lemma LeafShape(k: string)
    requires k !in PhraseKeys
    requires k in Shipped || k in ShippedSymbols
    ensures k in LeafCategory && k in Shipped && k in ShippedSymbols && k in ShippedRank
    ensures Shipped[k] == [Bracket(CategoryName(LeafCategory[k]))]
    ensures ShippedSymbols[k] == [[Bracket(CategoryName(LeafCategory[k]))]]
  {
    LeafKey(k);
    LeafAlternative(k);
    LeafSymbols(k);
  }

  /** The keys outside the phrase keys are exactly the leaf keys. */
  lemma LeafKey(k: string)
    requires k !in PhraseKeys
    requires k in Shipped || k in ShippedSymbols
    ensures k in LeafCategory && k in Shipped && k in ShippedSymbols && k in ShippedRank
  {
  }

  /** Each category written as a placeholder. */
  lemma CategoryBrackets()
    ensures Bracket(CategoryName(Determiners)) == "{determiners}"
    ensures Bracket(CategoryName(Nouns)) == "{nouns}"
    ensures Bracket(CategoryName(Verbs)) == "{verbs}"
    ensures Bracket(CategoryName(Adjectives)) == "{adjectives}"
    ensures Bracket(CategoryName(Adverbs)) == "{adverbs}"
    ensures Bracket(CategoryName(Prepositions)) == "{prepositions}"
    ensures Bracket(CategoryName(Conjunctions)) == "{conjunctions}"
  {
  }

  lemma LeafAlternative(k: string)
    requires k in LeafCategory
    ensures k in Shipped && Shipped[k] == [Bracket(CategoryName(LeafCategory[k]))]
  {
    CategoryBrackets();
  }

  lemma LeafSymbols(k: string)
    requires k in LeafCategory
    ensures k in ShippedSymbols && ShippedSymbols[k] == [[Bracket(CategoryName(LeafCategory[k]))]]
  {
    CategoryBrackets();
  }

  lemma JoinsS(i: nat)
    requires i < |Shipped["S"]|
    ensures i < |ShippedSymbols["S"]| && |ShippedSymbols["S"][i]| >= 1
    ensures forall j :: 0 <= j < |ShippedSymbols["S"][i]| ==> ' ' !in ShippedSymbols["S"][i][j]
    ensures Join(ShippedSymbols["S"][i], ' ') == Shipped["S"][i]
  {
    if i == 1 {
      JoinsCompound();
    }
  }

  /** The compound alternative of `S`. */
  lemma JoinsCompound()
    ensures Join(["SimpleSentence", "Conjunction", "SimpleSentence"], ' ') == "SimpleSentence Conjunction SimpleSentence"
  {
    JoinThree("SimpleSentence", "Conjunction", "SimpleSentence", ' ');
    assert "SimpleSentence" + " " + "Conjunction" + " " + "SimpleSentence" == "SimpleSentence Conjunction SimpleSentence";
  }

  lemma JoinsSimpleSentence(i: nat)
    requires i < |Shipped["SimpleSentence"]|
    ensures i < |ShippedSymbols["SimpleSentence"]| && |ShippedSymbols["SimpleSentence"][i]| >= 1
    ensures forall j :: 0 <= j < |ShippedSymbols["SimpleSentence"][i]| ==> ' ' !in ShippedSymbols["SimpleSentence"][i][j]
    ensures Join(ShippedSymbols["SimpleSentence"][i], ' ') == Shipped["SimpleSentence"][i]
  {
    assert Join(["NP", "VP"], ' ') == "NP VP";
    assert Join(["NP", "VP", "PP"], ' ') == "NP VP PP";
  }

  lemma JoinsNP(i: nat)
    requires i < |Shipped["NP"]|
    ensures i < |ShippedSymbols["NP"]| && |ShippedSymbols["NP"][i]| >= 1
    ensures forall j :: 0 <= j < |ShippedSymbols["NP"][i]| ==> ' ' !in ShippedSymbols["NP"][i][j]
    ensures Join(ShippedSymbols["NP"][i], ' ') == Shipped["NP"][i]
  {
    assert Join(["Det", "Adj", "Noun"], ' ') == "Det Adj Noun";
    assert Join(["Det", "Noun"], ' ') == "Det Noun";
  }

  lemma JoinsVP(i: nat)
    requires i < |Shipped["VP"]|
    ensures i < |ShippedSymbols["VP"]| && |ShippedSymbols["VP"][i]| >= 1
    ensures forall j :: 0 <= j < |ShippedSymbols["VP"][i]| ==> ' ' !in ShippedSymbols["VP"][i][j]
    ensures Join(ShippedSymbols["VP"][i], ' ') == Shipped["VP"][i]
  {
    assert Join(["Verb", "NP"], ' ') == "Verb NP";
    assert Join(["Verb", "Adv"], ' ') == "Verb Adv";
  }

  lemma JoinsPP(i: nat)
    requires i < |Shipped["PP"]|
    ensures i < |ShippedSymbols["PP"]| && |ShippedSymbols["PP"][i]| >= 1
    ensures forall j :: 0 <= j < |ShippedSymbols["PP"][i]| ==> ' ' !in ShippedSymbols["PP"][i][j]
    ensures Join(ShippedSymbols["PP"][i], ' ') == Shipped["PP"][i]
  {
    assert Join(["Prep", "NP"], ' ') == "Prep NP";
  }

  /** A key whose only alternative is one bracketed category name
      splits into that one symbol, which holds no space. */
  lemma CategoryLeafJoins(k: string, c: Category)
    requires k in Shipped && k in ShippedSymbols
    requires Shipped[k] == [Bracket(CategoryName(c))]
    requires ShippedSymbols[k] == [[Bracket(CategoryName(c))]]
    ensures forall i :: 0 <= i < |Shipped[k]| ==>
              && i < |ShippedSymbols[k]| && |ShippedSymbols[k][i]| >= 1
              && (forall j :: 0 <= j < |ShippedSymbols[k][i]| ==> ' ' !in ShippedSymbols[k][i][j])
              && Join(ShippedSymbols[k][i], ' ') == Shipped[k][i]
  {
    assert ' ' !in CategoryName(c);
  }

  /** A key whose only alternative is one bracketed category name fits. */
  lemma CategoryLeafFits(k: string, c: Category)
    requires k in ShippedSymbols && k in ShippedRank
    requires ShippedSymbols[k] == [[Bracket(CategoryName(c))]]
    ensures forall i, j :: 0 <= i < |ShippedSymbols[k]| && 0 <= j < |ShippedSymbols[k][i]| ==>
              SymbolFits(k, ShippedSymbols[k][i][j])
  {
    BracketRoundTrip(CategoryName(c));
    ParseCategoryName(c);
  }

  lemma FitsS()
    ensures forall i, j :: 0 <= i < |ShippedSymbols["S"]| && 0 <= j < |ShippedSymbols["S"][i]| ==>
              SymbolFits("S", ShippedSymbols["S"][i][j])
  {
  }

  lemma FitsSimpleSentence()
    ensures forall i, j :: 0 <= i < |ShippedSymbols["SimpleSentence"]| && 0 <= j < |ShippedSymbols["SimpleSentence"][i]| ==>
              SymbolFits("SimpleSentence", ShippedSymbols["SimpleSentence"][i][j])
  {
  }

  lemma FitsNP()
    ensures forall i, j :: 0 <= i < |ShippedSymbols["NP"]| && 0 <= j < |ShippedSymbols["NP"][i]| ==>
              SymbolFits("NP", ShippedSymbols["NP"][i][j])
  {
  }

  lemma FitsVP()
    ensures forall i, j :: 0 <= i < |ShippedSymbols["VP"]| && 0 <= j < |ShippedSymbols["VP"][i]| ==>
              SymbolFits("VP", ShippedSymbols["VP"][i][j])
  {
  }

  lemma FitsPP()
    ensures forall i, j :: 0 <= i < |ShippedSymbols["PP"]| && 0 <= j < |ShippedSymbols["PP"][i]| ==>
              SymbolFits("PP", ShippedSymbols["PP"][i][j])
  {
  }

  /** The start symbol is a nonterminal of the shipped grammar. */
  lemma ShippedHasStart()
    ensures Start in Shipped && IsNonterminal(Shipped, Start)
  {
  }

  /** Every shipped nonterminal has at least one alternative, so the
      index the generator picks always exists. */
  lemma ShippedNonEmptyRules()
    ensures NonEmptyRules(Shipped)
  {
  }

  /** Every symbol of every shipped alternative is a nonterminal or a
      bracketed name of one of the seven categories. */
  lemma ShippedClosed()
    ensures Closed(Shipped)
  {
    forall k, i, j | k in Shipped && 0 <= i < |Shipped[k]| && 0 <= j < |Parts(Shipped, k, i)|
      ensures IsNonterminal(Shipped, Parts(Shipped, k, i)[j])
              || (IsBracketed(Parts(Shipped, k, i)[j]) && ParseCategory(CategoryOf(Parts(Shipped, k, i)[j])).Some?)
    {
      ShippedParts(k, i);
      ShippedFits(k);
    }
  }

  /** The shipped grammar is acyclic, with `ShippedRank` as the witness. */
  lemma ShippedRanked()
    ensures Ranked(Shipped, ShippedRank)
    ensures Acyclic(Shipped)
  {
    forall k, i, j | k in Shipped && 0 <= i < |Shipped[k]| && 0 <= j < |Parts(Shipped, k, i)| && IsNonterminal(Shipped, Parts(Shipped, k, i)[j])
      ensures Parts(Shipped, k, i)[j] in ShippedRank && ShippedRank[Parts(Shipped, k, i)[j]] < ShippedRank[k]
    {
      ShippedParts(k, i);
      ShippedFits(k);
    }
    assert Ranked(Shipped, ShippedRank);
  }

  /** The shipped grammar meets everything expansion of `S` relies on. */
  lemma ShippedWellFormed()
    ensures WellFormed(Shipped, ShippedRank)
  {
    ShippedClosed();
    ShippedRanked();
  }
}
