/** "What is the name of the volcano?", a question of the kind the
    annotator's class comment describes, and a variant with an adjective,
    worked through the reference definitions of module ProxySpec. Two
    small edge lists at the end show that proxies are not deduplicated. */
module ProxyExamples {
  import opened Annotations
  import opened ProxySpec

  /** What(0) is(1) the(2) name(3) of(4) the(5) volcano(6) ?(7) */
  function VolcanoTokens(): seq<Token>
  {
    [Token(0, 4, "what"), Token(5, 7, "be"), Token(8, 11, "the"), Token(12, 16, "name"),
     Token(17, 19, "of"), Token(20, 23, "the"), Token(24, 31, "volcano"), Token(31, 32, "?")]
  }

  /** Its basic dependencies: "name" governs a determiner and a preposition,
      the preposition governs its object. */
  function VolcanoDeps(): seq<Dependency>
  {
    [Dependency(1, 0, "attr"), Dependency(3, 2, "det"), Dependency(1, 3, "nsubj"),
     Dependency(3, 4, "prep"), Dependency(6, 5, "det"), Dependency(4, 6, "pobj")]
  }

  function VolcanoRank(t: TokenId): nat
  {
    if t <= 8 then 8 - t else 0
  }

  lemma VolcanoWellFormed()
    ensures InDocument(VolcanoTokens(), VolcanoDeps()) && PrepRanked(VolcanoDeps(), VolcanoRank)
  {
  }

  /** "of" governs only the last edge, whose dependent "volcano" is its object. */
  lemma VolcanoOfProxyTokens()
    ensures PrepRanked(VolcanoDeps(), VolcanoRank)
    ensures ProxyTokens(VolcanoDeps(), VolcanoRank, 4) == [6]
  {
    var deps := VolcanoDeps();
    VolcanoWellFormed();
    GovernedSkip(deps, VolcanoRank, 4, 0, 5);
    assert EdgeProxies(deps, VolcanoRank, 4, 5) == [6];
  }

  /** From "name" the traversal passes the determiner by, follows "of" and
      stops at "volcano"; the determiner of "volcano" is never looked at. */
  lemma VolcanoProxyTokens()
    ensures PrepRanked(VolcanoDeps(), VolcanoRank)
    ensures ProxyTokens(VolcanoDeps(), VolcanoRank, 3) == [6]
  {
    var deps := VolcanoDeps();
    VolcanoOfProxyTokens();
    GovernedSkip(deps, VolcanoRank, 3, 0, 3);
    // the preposition "of" contributes what "of" governs
    assert EdgeProxies(deps, VolcanoRank, 3, 3) == [6];
    GovernedSkip(deps, VolcanoRank, 3, 4, 6);
  }

  /** The "name" focus of the question, as the focus detector leaves it. */
  function VolcanoNameFocus(): Focus
  {
    Focus(0, 12, 16, TokenBase(3), 3)
  }

  /** The scan of the question's one focus creates the proxy for "volcano"
      and collects the "name" focus for removal. */
  lemma VolcanoScan()
    ensures Anchored([VolcanoNameFocus()], VolcanoTokens()) && PrepRanked(VolcanoDeps(), VolcanoRank)
    ensures NameProxies(VolcanoTokens(), VolcanoDeps(), VolcanoRank, [VolcanoNameFocus()], 1) == [6]
    ensures Superseded(VolcanoTokens(), VolcanoDeps(), VolcanoRank, [VolcanoNameFocus()], 1) == [VolcanoNameFocus()]
  {
    VolcanoProxyTokens();
    assert IsNameFocus(VolcanoTokens(), VolcanoNameFocus());
  }

  /** The pass over the question replaces the "name" focus by a focus on
      "volcano" at the next free address. */
  lemma VolcanoPass()
    ensures var s := Sentence(0, 32, VolcanoDeps());
      var st := IndexState([VolcanoNameFocus()], 1);
      InDocument(VolcanoTokens(), s.deps) && PrepRanked(s.deps, VolcanoRank) && Anchored(st.foci, VolcanoTokens()) &&
      SentencePass(VolcanoTokens(), s, VolcanoRank, st) == IndexState([Focus(1, 24, 31, TokenBase(6), 6)], 2)
  {
    VolcanoWellFormed();
    VolcanoScan();
    var tokens, s := VolcanoTokens(), Sentence(0, 32, VolcanoDeps());
    var f := VolcanoNameFocus();
    var st := IndexState([f], 1);
    assert SelectCovered(st.foci, s) == [f];
    assert AddrsOf([f]) == {0};
    assert RemoveAddrs([f], {0}) == [];
    assert Proxies(tokens, [6], 1) == [Focus(1, 24, 31, TokenBase(6), 6)];
  }

  /** the(0) full(1) name(2) of(3) the(4) volcano(5) */
  function FullNameDeps(): seq<Dependency>
  {
    [Dependency(2, 0, "det"), Dependency(2, 1, "amod"), Dependency(2, 3, "prep"),
     Dependency(5, 4, "det"), Dependency(3, 5, "pobj")]
  }

  lemma FullNameRanked()
    ensures PrepRanked(FullNameDeps(), VolcanoRank)
  {
  }

  /** In the second question "of" governs only "volcano". */
  lemma FullNameOfProxyTokens()
    ensures PrepRanked(FullNameDeps(), VolcanoRank)
    ensures ProxyTokens(FullNameDeps(), VolcanoRank, 3) == [5]
  {
    var deps := FullNameDeps();
    FullNameRanked();
    GovernedSkip(deps, VolcanoRank, 3, 0, 4);
    assert EdgeProxies(deps, VolcanoRank, 3, 4) == [5];
  }

  /** Every dependent of "name" that is neither a preposition nor a
      determiner becomes a proxy, so an adjective gets one too, before the
      prepositional object. */
  lemma FullNameProxyTokens()
    ensures PrepRanked(FullNameDeps(), VolcanoRank)
    ensures ProxyTokens(FullNameDeps(), VolcanoRank, 2) == [1, 5]
  {
    var deps := FullNameDeps();
    FullNameOfProxyTokens();
    assert EdgeProxies(deps, VolcanoRank, 2, 0) == [];
    assert GovernedUpTo(deps, VolcanoRank, 2, 1) == [];
    assert EdgeProxies(deps, VolcanoRank, 2, 1) == [1];
    assert GovernedUpTo(deps, VolcanoRank, 2, 2) == [1];
    // the preposition "of" contributes what "of" governs
    assert EdgeProxies(deps, VolcanoRank, 2, 2) == [5];
    assert GovernedUpTo(deps, VolcanoRank, 2, 3) == [1, 5];
    GovernedSkip(deps, VolcanoRank, 2, 3, 5);
  }

  /** name(0) governs two prepositions, in(1) and on(2), whose objects are
      the same token x(3). */
  function DiamondDeps(): seq<Dependency>
  {
    [Dependency(0, 1, "prep"), Dependency(0, 2, "prep"), Dependency(1, 3, "pobj"), Dependency(2, 3, "pobj")]
  }

  lemma DiamondRanked()
    ensures PrepRanked(DiamondDeps(), VolcanoRank)
  {
  }

  /** A preposition governs only its own object. */
  lemma DiamondPrepProxyTokens(p: TokenId)
    requires p == 1 || p == 2
    ensures PrepRanked(DiamondDeps(), VolcanoRank)
    ensures ProxyTokens(DiamondDeps(), VolcanoRank, p) == [3]
  {
    var deps := DiamondDeps();
    DiamondRanked();
    if p == 1 {
      GovernedSkip(deps, VolcanoRank, 1, 0, 2);
      assert EdgeProxies(deps, VolcanoRank, 1, 2) == [3];
      GovernedSkip(deps, VolcanoRank, 1, 3, 4);
    } else {
      GovernedSkip(deps, VolcanoRank, 2, 0, 3);
      assert EdgeProxies(deps, VolcanoRank, 2, 3) == [3];
    }
  }

  /** The walk reaches x along both prepositions and creates a proxy for
      each: the traversal does not deduplicate tokens. */
  lemma DiamondProxyTokens()
    ensures PrepRanked(DiamondDeps(), VolcanoRank)
    ensures ProxyTokens(DiamondDeps(), VolcanoRank, 0) == [3, 3]
  {
    var deps := DiamondDeps();
    DiamondPrepProxyTokens(1);
    DiamondPrepProxyTokens(2);
    assert EdgeProxies(deps, VolcanoRank, 0, 0) == [3];
    assert GovernedUpTo(deps, VolcanoRank, 0, 1) == [3];
    assert EdgeProxies(deps, VolcanoRank, 0, 1) == [3];
    assert GovernedUpTo(deps, VolcanoRank, 0, 2) == [3, 3];
    GovernedSkip(deps, VolcanoRank, 0, 2, 4);
  }

  /** name(0) name(1) x(2): two "name" tokens that each govern x. */
  function SharedTokens(): seq<Token>
  {
    [Token(0, 4, "name"), Token(5, 9, "name"), Token(10, 11, "x")]
  }

  function SharedDeps(): seq<Dependency>
  {
    [Dependency(0, 2, "appos"), Dependency(1, 2, "appos")]
  }

  function SharedFoci(): seq<Focus>
  {
    [Focus(0, 0, 4, TokenBase(0), 0), Focus(1, 5, 9, TokenBase(1), 1)]
  }

  /** Each "name" focus yields x on its own walk. */
  lemma SharedWalks(g: TokenId)
    requires g == 0 || g == 1
    ensures PrepRanked(SharedDeps(), VolcanoRank)
    ensures ProxyTokens(SharedDeps(), VolcanoRank, g) == [2]
  {
    var deps := SharedDeps();
    assert EdgeProxies(deps, VolcanoRank, g, g) == [2];
    GovernedSkip(deps, VolcanoRank, g, 0, g);
    GovernedSkip(deps, VolcanoRank, g, g + 1, 2);
  }

  /** Two "name" foci that reach the same token each create a proxy for it,
      and both are collected for removal. */
  lemma SharedTokenTwoProxies()
    ensures Anchored(SharedFoci(), SharedTokens()) && PrepRanked(SharedDeps(), VolcanoRank)
    ensures NameProxies(SharedTokens(), SharedDeps(), VolcanoRank, SharedFoci(), 2) == [2, 2]
    ensures Superseded(SharedTokens(), SharedDeps(), VolcanoRank, SharedFoci(), 2) == SharedFoci()
  {
    SharedWalks(0);
    SharedWalks(1);
    var tokens, sel := SharedTokens(), SharedFoci();
    assert IsNameFocus(tokens, sel[0]) && IsNameFocus(tokens, sel[1]);
    assert NameProxies(tokens, SharedDeps(), VolcanoRank, sel, 1) == [2];
    assert Superseded(tokens, SharedDeps(), VolcanoRank, sel, 1) == [sel[0]];
  }
}
