/** The annotator itself: when a Focus of a question sentence is anchored on
    the lemma "name" ("What is the name of the volcano ...?"), it walks the
    dependency edges governed by that token, through prepositions and past
    determiners, and adds a proxy Focus on every other dependent it
    reaches; a "name" focus that got at least one proxy is removed. */
module FocusNameProxy {
  import opened Annotations
  import opened ProxySpec

  /** Adds one proxy Focus on token `proxied`: fresh address, the token's
      span, the token as base and as anchor. */
  method ProcessProxied(cas: FocusIndex, tokens: seq<Token>, proxied: TokenId)
    requires proxied < |tokens|
    modifies cas
    ensures TokensIn(tokens, [proxied]) && cas.State() == WithProxies(tokens, old(cas.State()), [proxied])
  {
    var a := cas.Allocate();
    var f := Focus(a, tokens[proxied].begin, tokens[proxied].end, TokenBase(proxied), proxied);
    cas.AddToIndexes(f);
  }

  /** Walks the edges governed by `gov` and returns the number of proxy foci
      it added, which are exactly those of ProxyTokens, in that order. */
  method ProcessAllGoverned(cas: FocusIndex, tokens: seq<Token>, deps: seq<Dependency>, gov: TokenId, ghost rank: TokenId -> nat)
    returns (numNew: int)
    requires InDocument(tokens, deps) && PrepRanked(deps, rank)
    modifies cas
    decreases rank(gov), 1
    ensures TokensIn(tokens, ProxyTokens(deps, rank, gov)) &&
            cas.State() == WithProxies(tokens, old(cas.State()), ProxyTokens(deps, rank, gov))
    ensures numNew == |ProxyTokens(deps, rank, gov)| && |cas.foci| == |old(cas.foci)| + numNew
  {
    numNew := 0;
    ghost var start := cas.State();
    for i := 0 to |deps|
      invariant TokensIn(tokens, GovernedUpTo(deps, rank, gov, i)) &&
                cas.State() == WithProxies(tokens, start, GovernedUpTo(deps, rank, gov, i))
      invariant numNew == |GovernedUpTo(deps, rank, gov, i)|
    {
      ghost var before := GovernedUpTo(deps, rank, gov, i);
      var n := ProcessEdge(cas, tokens, deps, gov, i, rank);
      WithProxiesTwice(tokens, start, before, EdgeProxies(deps, rank, gov, i));
      numNew := numNew + n;
    }
  }

  /** The loop body for the `i`-th edge: an edge of another governor and a
      determiner are skipped, a preposition is followed, anything else gets
      a proxy; the answer is the number of proxies added. */
  method ProcessEdge(cas: FocusIndex, tokens: seq<Token>, deps: seq<Dependency>, gov: TokenId, i: nat, ghost rank: TokenId -> nat)
    returns (n: int)
    requires i < |deps| && InDocument(tokens, deps) && PrepRanked(deps, rank)
    modifies cas
    decreases rank(gov), 0
    ensures TokensIn(tokens, EdgeProxies(deps, rank, gov, i)) &&
            cas.State() == WithProxies(tokens, old(cas.State()), EdgeProxies(deps, rank, gov, i))
    ensures n == |EdgeProxies(deps, rank, gov, i)|
  {
    EdgeInDocument(tokens, deps, rank, gov, i);
    var d := deps[i];
    if d.gov != gov {
      n := 0;
    } else if d.depType == "prep" {
      n := ProcessAllGoverned(cas, tokens, deps, d.dep, rank);
    } else if d.depType == "det" {
      // a determiner is ignored
      n := 0;
    } else {
      ProcessProxied(cas, tokens, d.dep);
      n := 1;
    }
  }

  /** The body of the scan for one selected focus `f`: the traversal runs
      only when `f` is anchored on the lemma "name"; the answer says whether
      it created a proxy, so that `f` is to be removed. */
  method ScanFocus(cas: FocusIndex, tokens: seq<Token>, deps: seq<Dependency>, f: Focus, ghost rank: TokenId -> nat)
    returns (superseded: bool)
    requires f.token < |tokens| && InDocument(tokens, deps) && PrepRanked(deps, rank)
    modifies cas
    ensures TokensIn(tokens, FocusProxies(tokens, deps, rank, f)) &&
            cas.State() == WithProxies(tokens, old(cas.State()), FocusProxies(tokens, deps, rank, f))
    ensures superseded <==> FocusProxies(tokens, deps, rank, f) != []
  {
    if tokens[f.token].lemmaValue != "name" {
      return false;
    }
    var n := ProcessAllGoverned(cas, tokens, deps, f.token, rank);
    superseded := n > 0;
  }

  /** The scan over the selected foci: runs the traversal from each
      "name" focus and collects those that got at least one proxy. */
  method ScanFoci(cas: FocusIndex, tokens: seq<Token>, deps: seq<Dependency>, sel: seq<Focus>, ghost rank: TokenId -> nat)
    returns (fToDel: seq<Focus>)
    requires Anchored(sel, tokens) && InDocument(tokens, deps) && PrepRanked(deps, rank)
    modifies cas
    ensures TokensIn(tokens, NameProxies(tokens, deps, rank, sel, |sel|)) &&
            cas.State() == WithProxies(tokens, old(cas.State()), NameProxies(tokens, deps, rank, sel, |sel|))
    ensures fToDel == Superseded(tokens, deps, rank, sel, |sel|)
  {
    fToDel := [];
    ghost var start := cas.State();
    for i := 0 to |sel|
      invariant TokensIn(tokens, NameProxies(tokens, deps, rank, sel, i)) &&
                cas.State() == WithProxies(tokens, start, NameProxies(tokens, deps, rank, sel, i))
      invariant fToDel == Superseded(tokens, deps, rank, sel, i)
    {
      assert sel[i] in sel;
      ghost var before := NameProxies(tokens, deps, rank, sel, i);
      var superseded := ScanFocus(cas, tokens, deps, sel[i], rank);
      WithProxiesTwice(tokens, start, before, FocusProxies(tokens, deps, rank, sel[i]));
      if superseded {
        // the original "name" focus goes: there is a better one
        fToDel := fToDel + [sel[i]];
      }
    }
  }

  /** Takes the collected foci out of the index, one after the other. */
  method RemoveAll(cas: FocusIndex, fToDel: seq<Focus>)
    modifies cas
    ensures cas.foci == RemoveAddrs(old(cas.foci), AddrsOf(fToDel)) && cas.next == old(cas.next)
  {
    RemoveAddrsNone(cas.foci, {});
    assert AddrsOf(fToDel[..0]) == {};
    for k := 0 to |fToDel|
      invariant cas.foci == RemoveAddrs(old(cas.foci), AddrsOf(fToDel[..k])) && cas.next == old(cas.next)
    {
      assert AddrsOf(fToDel[..k + 1]) == AddrsOf(fToDel[..k]) + {fToDel[k].addr};
      RemoveAddrsTwice(old(cas.foci), AddrsOf(fToDel[..k]), {fToDel[k].addr});
      cas.RemoveFromIndexes(fToDel[k]);
    }
    assert fToDel[..|fToDel|] == fToDel;
  }

  /** The pass over one sentence: scan its foci, then remove the superseded
      ones only after the scan. */
  method ProcessSentence(cas: FocusIndex, tokens: seq<Token>, s: Sentence, ghost rank: TokenId -> nat)
    requires cas.Valid() && Anchored(cas.foci, tokens)
    requires InDocument(tokens, s.deps) && PrepRanked(s.deps, rank)
    modifies cas
    ensures cas.State() == SentencePass(tokens, s, rank, old(cas.State()))
    ensures cas.Valid() && Anchored(cas.foci, tokens)
  {
    var sel := SelectCovered(cas.foci, s);
    var fToDel := ScanFoci(cas, tokens, s.deps, sel, rank);
    RemoveAll(cas, fToDel);
    ScanThenRemove(tokens, s, rank, old(cas.State()));
  }

  /** Runs the pass over every sentence of the document, in order. */
  method Process(cas: FocusIndex, tokens: seq<Token>, sentences: seq<Sentence>, ghost rank: TokenId -> nat)
    requires cas.Valid() && Anchored(cas.foci, tokens) && SentencesWellFormed(tokens, sentences, rank)
    modifies cas
    ensures cas.State() == DocumentPass(tokens, sentences, rank, old(cas.State()), |sentences|)
    ensures cas.Valid()
  {
    for i := 0 to |sentences|
      invariant cas.State() == DocumentPass(tokens, sentences, rank, old(cas.State()), i)
      invariant cas.Valid() && Anchored(cas.foci, tokens)
    {
      assert sentences[i] in sentences;
      ProcessSentence(cas, tokens, sentences[i], rank);
    }
  }
}
