# FocusNameProxy in Dafny

yodaqa's question analysis marks a *focus* on each question: the token that
stands for the expected answer. In "What is the name of the volcano?" the
focus lands on "name", which says little about the answer. The
`FocusNameProxy` annotator repairs this. For every Focus of a sentence that
is anchored on a token with the lemma `"name"`, it walks the dependency
edges governed by that token:

- it follows `prep` edges through to their dependents;
- it ignores `det` edges;
- every other edge ends the walk, and the annotator adds a new *proxy* Focus
  on that edge's dependent.

A "name" focus whose walk added at least one proxy is taken out of the CAS
index. The removal happens only after all foci of the sentence have been
scanned.

The model has four modules.

- `Annotations` (annotations.dfy) holds the data.
  - Tokens are positions in the document's token list, so the Java identity
    test on tokens becomes equality of positions.
  - A dependency is a `(gov, dep, depType)` triple.
  - A Focus carries its span, its base, its anchor token and its CAS
    address. The address is what gives a Focus its identity.
  - The CAS index of Focus annotations is the class `FocusIndex`. Its field
    `foci` holds the annotations in index order and its field `next` holds
    the next free address. `Allocate`, `AddToIndexes` and
    `RemoveFromIndexes` update these fields in place.
- `ProxySpec` (proxy_spec.dfy) gives reference definitions of what the pass
  computes, and proves properties about them.
  - `GovernedUpTo` and `EdgeProxies` give the tokens the walk turns into
    proxies, edge by edge. `ProxyTokens` gives them for the whole walk.
  - `NameProxies` and `Superseded` give the scan over a sentence's selected
    foci: which tokens get proxies, and which foci are collected for
    removal.
  - `SentencePass` is the index after one sentence. `DocumentPass` is the
    index after the first `i` sentences.
- `FocusNameProxy` (focus_name_proxy.dfy) holds the annotator itself.
  - It is imperative code over a `FocusIndex`: the same loops, the same
    recursion and the same deferred removal list as the Java code.
  - Every method is proved to leave the index exactly as the reference
    definitions say.
- `ProxyExamples` (proxy_examples.dfy) works two questions through the
  definitions. It adds two small edge lists that show proxies are not
  deduplicated.

The walk's recursion through `prep` edges terminates because of a ghost
`rank` on tokens, which strictly decreases from governor to dependent along
every `prep` edge (`PrepRanked`).

The traversal creates one Focus every time it reaches a terminal edge.
Each "name" focus contributes its own proxies (`NameProxiesSplit`), so a
token reached from two "name" foci gets two proxies
(`ProxyExamples.SharedTokenTwoProxies`). A token reached along two `prep`
chains of one walk gets two as well (`ProxyExamples.DiamondProxyTokens`).

## Model

| member | source | states |
|---|---|---|
| FocusNameProxy.ProcessProxied | src/main/java/cz/brmlab/yodaqa/analysis/question/FocusNameProxy.java:76-83 | The index gains exactly one Focus, at the next free address. Its begin, end, base and anchor are those of the proxied token. |
| FocusNameProxy.ProcessAllGoverned | src/main/java/cz/brmlab/yodaqa/analysis/question/FocusNameProxy.java:59-74 | The index gains exactly the proxies for `ProxyTokens(gov)`, in order, at fresh addresses. The returned count equals the number of foci added. |
| FocusNameProxy.ProcessEdge | src/main/java/cz/brmlab/yodaqa/analysis/question/FocusNameProxy.java:62-71 | Each edge adds exactly its `EdgeProxies`, as many as the returned count. Nothing is added for an edge of another governor or for `det`. For `prep` the recursion's proxies are added, and for any other type one proxy. |
| FocusNameProxy.ScanFocus | src/main/java/cz/brmlab/yodaqa/analysis/question/FocusNameProxy.java:46-53 | A focus not anchored on "name" adds nothing and is not collected. A "name" focus adds its walk's proxies. It is collected exactly when that walk added at least one. |
| FocusNameProxy.ScanFoci | src/main/java/cz/brmlab/yodaqa/analysis/question/FocusNameProxy.java:44-54 | Scanning the selected foci adds exactly `NameProxies` and collects exactly `Superseded` into the deferred removal list. |
| FocusNameProxy.RemoveAll | src/main/java/cz/brmlab/yodaqa/analysis/question/FocusNameProxy.java:55-56 | Removing the collected foci one by one takes out exactly the annotations with their addresses. The free-address counter is unchanged. |
| FocusNameProxy.ProcessSentence | src/main/java/cz/brmlab/yodaqa/analysis/question/FocusNameProxy.java:43-57 | The index after one sentence is `SentencePass` of the index before. The index stays well-addressed and anchored. |
| FocusNameProxy.Process | src/main/java/cz/brmlab/yodaqa/analysis/question/FocusNameProxy.java:37-41 | Processing the sentences in order leaves `DocumentPass` of the initial index, and keeps it well-addressed. |
| ProxySpec.GovernedUpTo | src/main/java/cz/brmlab/yodaqa/analysis/question/FocusNameProxy.java:60-73 | Definition: the proxy tokens of the walk from `gov` after its loop has seen the first `i` edges. It is the accumulator `numNew` as a sequence: each edge's contribution is appended in edge order. `ProcessAllGoverned`'s loop invariant is stated with it. |
| ProxySpec.EdgeProxies | src/main/java/cz/brmlab/yodaqa/analysis/question/FocusNameProxy.java:62-71 | Definition: what the `i`-th edge contributes. Nothing when `gov` is not its governor. The whole walk from its dependent for `prep`. Nothing for `det`. Its dependent alone for any other type. `ProcessEdge` is proved against it. |
| ProxySpec.ProxyTokens | src/main/java/cz/brmlab/yodaqa/analysis/question/FocusNameProxy.java:59-74 | Definition: the proxy tokens of the whole walk from `gov`, in creation order. `ProxyTokensIff` characterises it by paths, and its length is the count `ProcessAllGoverned` returns. |
| ProxySpec.ProxyPath | src/main/java/cz/brmlab/yodaqa/analysis/question/FocusNameProxy.java:59-74 | Independent reference definition: a list of edge positions that starts at an edge governed by `gov`, follows `prep` edges and ends at an edge that is neither `prep` nor `det` whose dependent is the target. It serves as the partner of `ProxyTokens` in `ProxyTokensIff`. |
| ProxySpec.ProxyFocus | src/main/java/cz/brmlab/yodaqa/analysis/question/FocusNameProxy.java:77-82 | Definition: the Focus created for token `t` at address `a`, with the token's begin and end and the token as base and anchor. `ProxyAt` and `PassNewFocusSound` state it of the created foci. |
| ProxySpec.WithProxies | src/main/java/cz/brmlab/yodaqa/analysis/question/FocusNameProxy.java:76-83 | Definition: the index after proxies for `ts` were added one after the other, each at the next free address. All method contracts of `FocusNameProxy` give the new state through it, and `WithProxiesTwice` composes it. |
| ProxySpec.NameProxies | src/main/java/cz/brmlab/yodaqa/analysis/question/FocusNameProxy.java:45-53 | Definition: the tokens that the scan of the first `i` selected foci turns into proxies. A "name" focus contributes its walk's tokens and any other focus nothing. `NameProxiesMembers` and `NameProxiesSplit` state its properties. |
| ProxySpec.Superseded | src/main/java/cz/brmlab/yodaqa/analysis/question/FocusNameProxy.java:49-53 | Definition: the list `fToDel` after the first `i` selected foci, namely the "name" foci whose walk yielded at least one proxy, in selection order. `SupersededMembers` characterises it. |
| ProxySpec.FocusProxies | src/main/java/cz/brmlab/yodaqa/analysis/question/FocusNameProxy.java:46-49 | Definition: the proxies of one selected focus. Its walk's tokens when it is anchored on "name", none otherwise. `ScanFocus` is proved against it. |
| ProxySpec.ProxyTokensIff | src/main/java/cz/brmlab/yodaqa/analysis/question/FocusNameProxy.java:59-74 | A token gets a proxy from the walk at `gov` if and only if a chain of `prep` edges leads from `gov` to an edge that is neither `prep` nor `det` and whose dependent is that token. |
| ProxySpec.GovernedSound | src/main/java/cz/brmlab/yodaqa/analysis/question/FocusNameProxy.java:61-71 | Every proxy token found among the first `i` edges has such a path starting at one of those edges. |
| ProxySpec.GovernedComplete | src/main/java/cz/brmlab/yodaqa/analysis/question/FocusNameProxy.java:61-71 | Every path starting at one of the first `i` edges yields its token among the proxies of those edges. |
| ProxySpec.GovernedSkip | src/main/java/cz/brmlab/yodaqa/analysis/question/FocusNameProxy.java:62-67 | A run of edges, each of another governor or of type `det`, contributes no proxy. |
| ProxySpec.OnlyDeterminersYieldNothing | src/main/java/cz/brmlab/yodaqa/analysis/question/FocusNameProxy.java:60-73 | A governor that governs no edge, or only `det` edges, yields no proxy, so its count is 0. |
| ProxySpec.Proxies | src/main/java/cz/brmlab/yodaqa/analysis/question/FocusNameProxy.java:77-82 | One proxy is created per proxied token. |
| ProxySpec.ProxyAt | src/main/java/cz/brmlab/yodaqa/analysis/question/FocusNameProxy.java:77-82 | The j-th proxy has address `next + j`. Its begin and end are those of the j-th token, and that token is both its base and its anchor. |
| ProxySpec.ProxiesAppend | src/main/java/cz/brmlab/yodaqa/analysis/question/FocusNameProxy.java:65 | The proxies for two walks made one after the other are the proxies of the joined walk. The second walk starts where the first left the address counter. |
| ProxySpec.WithProxiesTwice | src/main/java/cz/brmlab/yodaqa/analysis/question/FocusNameProxy.java:65 | Adding the proxies for `a` and then those for `b` gives the same index as adding those for `a + b`. This is how the counts of sub-walks add up. |
| ProxySpec.ProxiesWellAddressed | src/main/java/cz/brmlab/yodaqa/analysis/question/FocusNameProxy.java:77 | Proxies occupy distinct fresh addresses, from `next` on. |
| ProxySpec.NameProxiesMembers | src/main/java/cz/brmlab/yodaqa/analysis/question/FocusNameProxy.java:45-49 | A token gets a proxy from the scan if and only if some selected focus anchored on "name" reaches it. |
| ProxySpec.NameProxiesSplit | src/main/java/cz/brmlab/yodaqa/analysis/question/FocusNameProxy.java:44-53 | The selected foci contribute independently. A later stretch of the selection adds its own proxies after the earlier ones, with no deduplication. |
| ProxySpec.SupersededMembers | src/main/java/cz/brmlab/yodaqa/analysis/question/FocusNameProxy.java:46-53 | A selected focus is collected for removal if and only if it is anchored on "name" and its walk yields at least one proxy. |
| ProxySpec.SentencePass | src/main/java/cz/brmlab/yodaqa/analysis/question/FocusNameProxy.java:43-57 | After a sentence every focus is still anchored on a document token. The address counter does not go back, and a well-addressed index stays well-addressed. |
| ProxySpec.ScanThenRemove | src/main/java/cz/brmlab/yodaqa/analysis/question/FocusNameProxy.java:44-56 | Appending all proxies first and removing the collected foci afterwards gives the sentence's result. The removal touches none of the new proxies. |
| ProxySpec.PassKeepsExactly | src/main/java/cz/brmlab/yodaqa/analysis/question/FocusNameProxy.java:46-56 | A focus of the index survives the sentence if and only if it is not a covered, "name"-anchored focus whose walk yields a proxy. So a non-"name" focus is never removed, and a "name" focus with a count of 0 stays. |
| ProxySpec.PassKeepsOld | src/main/java/cz/brmlab/yodaqa/analysis/question/FocusNameProxy.java:49-56 | A focus allocated before the sentence is in the index afterwards if and only if it was there before and was not superseded. |
| ProxySpec.PassNewFocusSound | src/main/java/cz/brmlab/yodaqa/analysis/question/FocusNameProxy.java:45-82 | Every focus the sentence adds sits at a fresh address. Its span and base are those of its anchor token, and that token is reached from a covered "name" focus. |
| ProxySpec.PassNewFocusComplete | src/main/java/cz/brmlab/yodaqa/analysis/question/FocusNameProxy.java:45-70 | Every token reached from a covered "name" focus gets a proxy: a `ProxyFocus` on that token, at a fresh address. |
| ProxySpec.PassWithoutProxiesChangesNothing | src/main/java/cz/brmlab/yodaqa/analysis/question/FocusNameProxy.java:46-56 | When no covered "name" focus reaches any token, the sentence leaves the index exactly as it was. |
| ProxySpec.SecondPassIsNoop | src/main/java/cz/brmlab/yodaqa/analysis/question/FocusNameProxy.java:43-57 | Suppose no token reached from a covered "name" focus has the lemma "name" itself. Then running the sentence a second time changes nothing. |
| ProxySpec.DocumentPass | src/main/java/cz/brmlab/yodaqa/analysis/question/FocusNameProxy.java:37-41 | After any number of sentences every focus is still anchored on a document token. The address counter does not go back, and the index stays well-addressed. |
| ProxySpec.DocumentKeepsExactly | src/main/java/cz/brmlab/yodaqa/analysis/question/FocusNameProxy.java:37-56 | An original focus survives the first `i` sentences if and only if none of them covers it, finds it anchored on "name", and yields a proxy from it. |
| Annotations.SelectCovered | src/main/java/cz/brmlab/yodaqa/analysis/question/FocusNameProxy.java:45 | The selection holds exactly the foci of the index that lie within the sentence's span. |
| Annotations.RemoveAddrs | src/main/java/cz/brmlab/yodaqa/analysis/question/FocusNameProxy.java:55-56 | A focus remains if and only if it was in the index and its address is not among the removed ones. |
| Annotations.RemoveAddrsTwice | src/main/java/cz/brmlab/yodaqa/analysis/question/FocusNameProxy.java:55-56 | Removing one set of addresses and then another is the same as removing their union. |
| Annotations.RemoveBeforeFresh | src/main/java/cz/brmlab/yodaqa/analysis/question/FocusNameProxy.java:55-56 | Removing addresses allocated before `next` leaves the annotations added from `next` on untouched and in place. |
| Annotations.WellAddressedUnique | src/main/java/cz/brmlab/yodaqa/analysis/question/FocusNameProxy.java:56 | In a well-addressed index an address names a single Focus, so removal by identity takes out only that focus. |
| Annotations.FocusIndex.Allocate | src/main/java/cz/brmlab/yodaqa/analysis/question/FocusNameProxy.java:77 | A new Focus gets the next free address. The counter moves on by one, and the annotations are unchanged. |
| Annotations.FocusIndex.AddToIndexes | src/main/java/cz/brmlab/yodaqa/analysis/question/FocusNameProxy.java:82 | The Focus is appended to the index. The counter is unchanged. |
| Annotations.FocusIndex.RemoveFromIndexes | src/main/java/cz/brmlab/yodaqa/analysis/question/FocusNameProxy.java:56 | The annotation with the Focus's address leaves the index and the counter is unchanged. A well-addressed index stays well-addressed. |
| ProxyExamples.VolcanoOfProxyTokens | src/main/java/cz/brmlab/yodaqa/analysis/question/FocusNameProxy.java:68-71 | In "What is the name of the volcano?" the preposition "of" yields the single proxy "volcano". |
| ProxyExamples.VolcanoProxyTokens | src/main/java/cz/brmlab/yodaqa/analysis/question/FocusNameProxy.java:59-74 | From "name" the walk passes the determiner by and follows "of". It yields exactly "volcano". |
| ProxyExamples.VolcanoScan | src/main/java/cz/brmlab/yodaqa/analysis/question/FocusNameProxy.java:45-53 | The scan of that question's "name" focus creates the proxy on "volcano" and collects the "name" focus. |
| ProxyExamples.VolcanoPass | src/main/java/cz/brmlab/yodaqa/analysis/question/FocusNameProxy.java:43-57 | On that question the pass replaces the "name" focus by one Focus on "volcano", at the next free address. |
| ProxyExamples.FullNameOfProxyTokens | src/main/java/cz/brmlab/yodaqa/analysis/question/FocusNameProxy.java:64-71 | In "the full name of the volcano", "of" yields "volcano". |
| ProxyExamples.FullNameProxyTokens | src/main/java/cz/brmlab/yodaqa/analysis/question/FocusNameProxy.java:64-71 | Every dependent of "name" other than a preposition or a determiner becomes a proxy, so the adjective "full" gets one before "volcano". |
| ProxyExamples.DiamondPrepProxyTokens | src/main/java/cz/brmlab/yodaqa/analysis/question/FocusNameProxy.java:68-71 | In the diamond example each of the two prepositions yields its object x exactly once. |
| ProxyExamples.DiamondProxyTokens | src/main/java/cz/brmlab/yodaqa/analysis/question/FocusNameProxy.java:64-71 | A token reached along two `prep` chains of one walk gets two proxies. The count adds up over the paths, with no deduplication. |
| ProxyExamples.SharedWalks | src/main/java/cz/brmlab/yodaqa/analysis/question/FocusNameProxy.java:59-74 | In the shared example the walk from each of the two "name" tokens yields x. |
| ProxyExamples.SharedTokenTwoProxies | src/main/java/cz/brmlab/yodaqa/analysis/question/FocusNameProxy.java:44-53 | Two "name" foci that reach the same token each create a proxy for it, and both are collected for removal. |

## Left out

- UIMA plumbing is not modelled.
  - This covers the `JCas` and its type system, `initialize` (lines 33-35) and the unused `Logger` (line 31).
  - The CAS index is only the Focus records and an address counter.
- The index order is insertion order. UIMA's annotation index sorts by offsets. The model does not capture that order. Which foci survive and which tokens get proxies does not depend on that order, since `PassKeepsExactly`, `PassNewFocusSound` and `PassNewFocusComplete` state both without reference to it.
- `JCasUtil.select(jcas, ROOT.class)` is taken as the given list of sentences.
- `JCasUtil.selectCovered(Dependency.class, sentence)` is taken as the given edge list `Sentence.deps`. The model does not recompute which edges the sentence covers.
- Tokenisation, lemmatisation, dependency parsing and the stage that detects the original foci are upstream. Their output is input here, including each original Focus's base (`OtherBase` when it is not a token).
- Edges are required to join document tokens (`InDocument`), and foci to be anchored on document tokens (`Anchored`). The Java code would fail on a missing token or lemma; those null-pointer paths are not modelled.
- Cyclic `prep` chains are excluded by the ghost `rank` (`PrepRanked`). On such a chain the Java recursion would not terminate, and that divergence is not modelled.
  - The exclusion is wider than the Java code needs. `PrepRanked` covers every `prep` edge of a sentence, so a `prep` cycle that no walk from a "name" token ever enters is excluded too, although the Java code terminates on it.
  - `Process` uses one `rank` for all sentences of the document.
- FocusNameProxy.ProcessAllGoverned: does not model the 32-bit wrap-around of the Java `int` counter `numNew`, because the model's integers are unbounded. Reaching 2^31 proxies would take that many walk paths in one sentence.
- Downstream consumers of Focus (answer-type and LAT generation) are out of scope.
