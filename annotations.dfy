/** The annotations the Focus name-proxy pass reads and writes: tokens,
    typed dependency edges, sentences and Focus annotations, and the
    CAS index that holds the Focus annotations of a document. */
module Annotations {

  /** Position of a token in the document's token list. Two tokens are the
      same object exactly when their positions are equal. */
  type TokenId = nat

  /** Address of a feature structure in the CAS. It is what gives each
      annotation object its identity. */
  type Addr = nat

  /** A word occurrence: its character span and the value of its lemma annotation. */
  datatype Token = Token(begin: int, end: int, lemmaValue: string)

  /** A typed dependency edge from a governor token to a dependent token. */
  datatype Dependency = Dependency(gov: TokenId, dep: TokenId, depType: string)

  /** What a Focus is based on: a token, or another annotation chosen by the
      stage that detected the original focus. */
  datatype Base = TokenBase(tok: TokenId) | OtherBase(begin: int, end: int)

  /** A Focus annotation: its address, its span, its base and the token it
      is anchored on. */
  datatype Focus = Focus(addr: Addr, begin: int, end: int, base: Base, token: TokenId)

  /** A sentence (the ROOT constituent): its span and the dependency edges
      it covers, in index order. */
  datatype Sentence = Sentence(begin: int, end: int, deps: seq<Dependency>)

  /** The abstract value of the Focus index: its annotations in index order
      and the next free feature-structure address. */
  datatype IndexState = IndexState(foci: seq<Focus>, next: Addr)

  predicate Covered(f: Focus, s: Sentence)
  {
    s.begin <= f.begin && f.end <= s.end
  }

  predicate ValidState(st: IndexState)
  {
    WellAddressed(st.foci, st.next)
  }

  /** Every address of `foci` is already allocated (below `next`), and no
      address occurs twice. */
  predicate WellAddressed(foci: seq<Focus>, next: Addr)
    decreases |foci|
  {
    foci == [] ||
    (foci[0].addr < next && foci[0].addr !in AddrsOf(foci[1..]) && WellAddressed(foci[1..], next))
  }

  lemma {:induction false} WellAddressedBelow(foci: seq<Focus>, next: Addr, f: Focus)
    requires WellAddressed(foci, next) && f in foci
    ensures f.addr < next
    decreases |foci|
  {
    if f != foci[0] {
      WellAddressedBelow(foci[1..], next, f);
    }
  }

  /** An address names at most one annotation of a well-addressed index. */
  lemma {:induction false} WellAddressedUnique(foci: seq<Focus>, next: Addr, f: Focus, g: Focus)
    requires WellAddressed(foci, next) && f in foci && g in foci && f.addr == g.addr
    ensures f == g
    decreases |foci|
  {
    if f != foci[0] && g != foci[0] {
      WellAddressedUnique(foci[1..], next, f, g);
    }
  }

  lemma {:induction false} WellAddressedGrow(foci: seq<Focus>, next: Addr, later: Addr)
    requires WellAddressed(foci, next) && next <= later
    ensures WellAddressed(foci, later)
    decreases |foci|
  {
    if foci != [] {
      WellAddressedGrow(foci[1..], next, later);
    }
  }

  /** Two well-addressed sequences with disjoint addresses concatenate to a
      well-addressed one. */
  lemma {:induction false} WellAddressedAppend(a: seq<Focus>, b: seq<Focus>, next: Addr)
    requires WellAddressed(a, next) && WellAddressed(b, next)
    requires forall f :: f in a ==> f.addr !in AddrsOf(b)
    ensures WellAddressed(a + b, next)
    decreases |a|
  {
    if a == [] {
      assert a + b == b;
    } else {
      assert (a + b)[0] == a[0] && (a + b)[1..] == a[1..] + b;
      WellAddressedAppend(a[1..], b, next);
      assert a[0] in a;
      assert AddrsOf(a[1..] + b) == AddrsOf(a[1..]) + AddrsOf(b);
    }
  }

  lemma {:induction false} WellAddressedRemove(foci: seq<Focus>, next: Addr, gone: set<Addr>)
    requires WellAddressed(foci, next)
    ensures WellAddressed(RemoveAddrs(foci, gone), next)
    decreases |foci|
  {
    if foci != [] {
      WellAddressedRemove(foci[1..], next, gone);
      var head := if foci[0].addr in gone then [] else [foci[0]];
      assert AddrsOf(RemoveAddrs(foci[1..], gone)) <= AddrsOf(foci[1..]);
      WellAddressedAppend(head, RemoveAddrs(foci[1..], gone), next);
    }
  }

  /** Every focus is anchored on a token of the document. */
  predicate Anchored(foci: seq<Focus>, tokens: seq<Token>)
  {
    forall f :: f in foci ==> f.token < |tokens|
  }

  function AddrsOf(foci: seq<Focus>): (addrs: set<Addr>)
  {
    set f | f in foci :: f.addr
  }

  /** The Focus annotations of the index that lie inside the sentence, in
      index order. */
  function SelectCovered(foci: seq<Focus>, s: Sentence): (sel: seq<Focus>)
    ensures |sel| <= |foci|
    ensures forall f :: f in sel <==> f in foci && Covered(f, s)
  {
    if foci == [] then []
    else (if Covered(foci[0], s) then [foci[0]] else []) + SelectCovered(foci[1..], s)
  }

  /** The index with every annotation whose address is in `gone` taken out;
      the others keep their order. */
  function RemoveAddrs(foci: seq<Focus>, gone: set<Addr>): (r: seq<Focus>)
    ensures |r| <= |foci|
    ensures forall f :: f in r <==> f in foci && f.addr !in gone
  {
    if foci == [] then []
    else (if foci[0].addr in gone then [] else [foci[0]]) + RemoveAddrs(foci[1..], gone)
  }

  lemma {:induction false} RemoveAddrsAppend(a: seq<Focus>, b: seq<Focus>, gone: set<Addr>)
    ensures RemoveAddrs(a + b, gone) == RemoveAddrs(a, gone) + RemoveAddrs(b, gone)
  {
    if a != [] {
      assert (a + b)[0] == a[0] && (a + b)[1..] == a[1..] + b;
      RemoveAddrsAppend(a[1..], b, gone);
      var head := if a[0].addr in gone then [] else [a[0]];
      assert RemoveAddrs(a + b, gone) == head + (RemoveAddrs(a[1..], gone) + RemoveAddrs(b, gone));
    } else {
      assert a + b == b;
    }
  }

  lemma {:induction false} RemoveAddrsTwice(foci: seq<Focus>, first: set<Addr>, second: set<Addr>)
    ensures RemoveAddrs(RemoveAddrs(foci, first), second) == RemoveAddrs(foci, first + second)
  {
    if foci != [] {
      RemoveAddrsTwice(foci[1..], first, second);
      var head := if foci[0].addr in first then [] else [foci[0]];
      RemoveAddrsAppend(head, RemoveAddrs(foci[1..], first), second);
    }
  }

  /** Removing addresses that were all allocated before `next` leaves the
      annotations added from `next` on untouched. */
  lemma RemoveBeforeFresh(foci: seq<Focus>, added: seq<Focus>, gone: set<Addr>, next: Addr)
    requires forall a :: a in gone ==> a < next
    requires forall f :: f in added ==> next <= f.addr
    ensures RemoveAddrs(foci + added, gone) == RemoveAddrs(foci, gone) + added
  {
    RemoveAddrsAppend(foci, added, gone);
    RemoveAddrsNone(added, gone);
  }

  lemma {:induction false} RemoveAddrsNone(foci: seq<Focus>, gone: set<Addr>)
    requires forall f :: f in foci ==> f.addr !in gone
    ensures RemoveAddrs(foci, gone) == foci
  {
    if foci != [] {
      assert foci[0] in foci;
      RemoveAddrsNone(foci[1..], gone);
    }
  }

  /** The CAS index of Focus annotations, updated in place by the pass. */
  class FocusIndex {
    var foci: seq<Focus>
    var next: Addr

    function State(): (st: IndexState)
      reads this
    {
      IndexState(foci, next)
    }

    ghost predicate Valid()
      reads this
    {
      ValidState(State())
    }

    /** `new Focus(jcas)`: the CAS hands out the next free address. */
    method Allocate() returns (a: Addr)
      modifies this
      ensures a == old(next) && next == old(next) + 1 && foci == old(foci)
    {
      a := next;
      next := next + 1;
    }

    /** `addToIndexes`: the annotation joins the index. */
    method AddToIndexes(f: Focus)
      modifies this
      ensures foci == old(foci) + [f] && next == old(next)
    {
      foci := foci + [f];
    }

    /** `removeFromIndexes`: the annotation with this identity leaves the
        index; a well-addressed index stays well-addressed. */
    method RemoveFromIndexes(f: Focus)
      modifies this
      ensures foci == RemoveAddrs(old(foci), {f.addr}) && next == old(next)
      ensures old(Valid()) ==> Valid()
    {
      if Valid() {
        WellAddressedRemove(foci, next, {f.addr});
      }
      foci := RemoveAddrs(foci, {f.addr});
    }
  }
}
