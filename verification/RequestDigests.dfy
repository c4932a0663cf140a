/** Digests of the requests seen at each edge of the transport, kept by each process and
    combined over all of them. */
module RequestDigests {
  import opened Permutations

  datatype Edge = Submit | Observe | Publish | Consume

  const TWO64: int := 0x1_0000_0000_0000_0000

  type Word = x: int | 0 <= x < TWO64

  /** Addition of 64-bit words wraps. */
  function Plus(a: Word, b: Word): Word {
    if a + b < TWO64 then a + b else a + b - TWO64
  }

  /** A 64-bit mask, as the set of its bits that are one. */
  type Mask = set<nat>

  function Xor(a: Mask, b: Mask): Mask {
    (a - b) + (b - a)
  }

  /** Xor and wrapping sums of two words of every request. */
  datatype Digest = Digest(count: nat, xor0: Mask, xor1: Mask, sum0: Word, sum1: Word)

  const Zero: Digest := Digest(0, {}, {}, 0, 0)

  /** What a request adds to its digest; how the words are made is not part of this model. */
  datatype Request = Request(mask0: Mask, mask1: Mask, term0: Word, term1: Word)

  function Note(d: Digest, r: Request): Digest {
    Digest(d.count + 1, Xor(d.xor0, r.mask0), Xor(d.xor1, r.mask1), Plus(d.sum0, r.term0), Plus(d.sum1, r.term1))
  }

  function Combine(a: Digest, b: Digest): Digest {
    Digest(a.count + b.count, Xor(a.xor0, b.xor0), Xor(a.xor1, b.xor1), Plus(a.sum0, b.sum0), Plus(a.sum1, b.sum1))
  }

  function DigestOf(requests: seq<Request>): Digest {
    Fold(Note, Zero, requests)
  }

  // --- Combining -------------------------------------------------------------------

  type Arena = map<Edge, Digest>

  function CombineAll(arenas: seq<Arena>, edge: Edge): Digest {
    if arenas == [] then Zero
    else
      var init, last := CombineAll(arenas[..|arenas| - 1], edge), arenas[|arenas| - 1];
      if edge in last then Combine(init, last[edge]) else init
  }

  const Edges: seq<Edge> := [Submit, Observe, Publish, Consume]

  function Place(edge: Edge): (i: int)
    ensures 0 <= i < |Edges| && Edges[i] == edge
  {
    match edge
    case Submit => 0
    case Observe => 1
    case Publish => 2
    case Consume => 3
  }

  lemma EveryEdge()
    ensures forall edge: Edge :: edge in Edges
  {
    forall edge: Edge
      ensures edge in Edges
    {
      assert Edges[Place(edge)] == edge;
    }
  }

  ghost predicate Totals(combined: map<Edge, Digest>, arenas: seq<Arena>) {
    forall edge :: edge in combined && combined[edge] == CombineAll(arenas, edge)
  }

  function Combined(before: Digest, arena: Arena, edge: Edge): Digest {
    if edge in arena then Combine(before, arena[edge]) else before
  }

  method CombineArena(combined0: map<Edge, Digest>, arena: Arena) returns (combined: map<Edge, Digest>)
    requires forall edge: Edge :: edge in combined0
    ensures forall edge: Edge :: edge in combined && combined[edge] == Combined(combined0[edge], arena, edge)
  {
    combined := combined0;
    var i := 0;
    while i < |Edges|
      invariant 0 <= i <= |Edges|
      invariant forall edge: Edge :: edge in combined && combined[edge] ==
                  if Place(edge) < i then Combined(combined0[edge], arena, edge) else combined0[edge]
    {
      var edge := Edges[i];
      assert Place(edge) == i;
      combined := combined[edge := Combined(combined[edge], arena, edge)];
      i := i + 1;
    }
  }

  method CombinedRequestDigests(arenas: seq<Arena>) returns (combined: map<Edge, Digest>)
    ensures Totals(combined, arenas)
  {
    EveryEdge();
    combined := map edge: Edge | edge in Edges :: Zero;
    var i := 0;
    assert arenas[..0] == [];
    while i < |arenas|
      invariant 0 <= i <= |arenas|
      invariant Totals(combined, arenas[..i])
    {
      assert arenas[..i + 1][..i] == arenas[..i];
      combined := CombineArena(combined, arenas[i]);
      i := i + 1;
    }
    assert arenas[..i] == arenas;
  }

  ghost predicate EdgesMatch(arenas: seq<Arena>) {
    forall edge :: CombineAll(arenas, edge) == CombineAll(arenas, Submit)
  }

  /** Whether all four edges have the digest of the first. */
  method DigestMatch(arenas: seq<Arena>) returns (same: bool)
    ensures same <==> EdgesMatch(arenas)
  {
    var combined := CombinedRequestDigests(arenas);
    assert Submit in combined;
    var i := 0;
    while i < |Edges|
      invariant 0 <= i <= |Edges|
      invariant forall edge: Edge :: Place(edge) < i ==> CombineAll(arenas, edge) == CombineAll(arenas, Submit)
    {
      var edge := Edges[i];
      assert Place(edge) == i && edge in combined;
      if combined[edge] != combined[Submit] {
        return false;
      }
      i := i + 1;
    }
    forall edge: Edge
      ensures CombineAll(arenas, edge) == CombineAll(arenas, Submit)
    {
      assert Place(edge) < i;
    }
    return true;
  }

  // --- Digests of divided requests -------------------------------------------------

  lemma NoteCommutes()
    ensures Commutes(Note)
  {
  }

  lemma CombineNote(a: Digest, b: Digest, r: Request)
    ensures Combine(a, Note(b, r)) == Note(Combine(a, b), r)
  {
  }

  lemma CombineZero(a: Digest)
    ensures Combine(a, Zero) == a
  {
  }

  lemma {:induction false} CombineJoins(a: seq<Request>, b: seq<Request>)
    ensures Combine(DigestOf(a), DigestOf(b)) == DigestOf(a + b)
    decreases |b|
  {
    if b == [] {
      assert a + b == a;
      CombineZero(DigestOf(a));
    } else {
      var init, last := b[..|b| - 1], b[|b| - 1];
      CombineJoins(a, init);
      CombineNote(DigestOf(a), DigestOf(init), last);
      assert a + b == a + init + [last] && b == init + [last];
      FoldSnoc(Note, Zero, a + init, last);
    }
  }

  /** The requests that each process saw at each edge; an edge it never saw is not there. */
  type Seen = map<Edge, seq<Request>>

  function All(seen: seq<Seen>, edge: Edge): seq<Request> {
    if seen == [] then []
    else
      var init, last := All(seen[..|seen| - 1], edge), seen[|seen| - 1];
      if edge in last then init + last[edge] else init
  }

  predicate Keeps(arenas: seq<Arena>, seen: seq<Seen>) {
    && |arenas| == |seen|
    && forall i :: 0 <= i < |arenas| ==> Kept(arenas[i], seen[i])
  }

  predicate Kept(arena: Arena, seen: Seen) {
    arena.Keys == seen.Keys && forall edge :: edge in arena ==> arena[edge] == DigestOf(seen[edge])
  }

  lemma {:induction false} CombinedIsDigest(arenas: seq<Arena>, seen: seq<Seen>, edge: Edge)
    requires Keeps(arenas, seen)
    ensures CombineAll(arenas, edge) == DigestOf(All(seen, edge))
  {
    if arenas != [] {
      var last := seen[|seen| - 1];
      CombinedIsDigest(arenas[..|arenas| - 1], seen[..|seen| - 1], edge);
      assert Kept(arenas[|arenas| - 1], last);
      if edge in last {
        CombineJoins(All(seen[..|seen| - 1], edge), last[edge]);
      }
    }
  }

  /** A digest depends only on which requests there were and how often. */
  lemma DigestIgnoresOrder(a: seq<Request>, b: seq<Request>)
    requires multiset(a) == multiset(b)
    ensures DigestOf(a) == DigestOf(b)
  {
    NoteCommutes();
    FoldPermutation(Note, Zero, a, b);
  }

  /** Two divisions of the same requests among processes give the same combined digest. */
  lemma DivisionDoesNotMatter(a: seq<Arena>, seenA: seq<Seen>, b: seq<Arena>, seenB: seq<Seen>, edgeA: Edge, edgeB: Edge)
    requires Keeps(a, seenA) && Keeps(b, seenB)
    requires multiset(All(seenA, edgeA)) == multiset(All(seenB, edgeB))
    ensures CombineAll(a, edgeA) == CombineAll(b, edgeB)
  {
    CombinedIsDigest(a, seenA, edgeA);
    CombinedIsDigest(b, seenB, edgeB);
    DigestIgnoresOrder(All(seenA, edgeA), All(seenB, edgeB));
  }

  /** When the same requests passed all four edges, in whatever order and through
      whichever processes, the digests match. */
  lemma EqualRequestsMatch(arenas: seq<Arena>, seen: seq<Seen>)
    requires Keeps(arenas, seen)
    requires forall edge :: multiset(All(seen, edge)) == multiset(All(seen, Submit))
    ensures EdgesMatch(arenas)
  {
    forall edge: Edge
      ensures CombineAll(arenas, edge) == CombineAll(arenas, Submit)
    {
      DivisionDoesNotMatter(arenas, seen, arenas, seen, edge, Submit);
    }
  }

  /** Requests that passed one edge and not another are noticed by their number. */
  lemma {:induction false} CountIsLength(requests: seq<Request>)
    ensures DigestOf(requests).count == |requests|
  {
    if requests != [] {
      CountIsLength(requests[..|requests| - 1]);
    }
  }

  lemma LostRequestsDoNotMatch(arenas: seq<Arena>, seen: seq<Seen>, edge: Edge)
    requires Keeps(arenas, seen) && |All(seen, edge)| != |All(seen, Submit)|
    ensures !EdgesMatch(arenas)
  {
    CombinedIsDigest(arenas, seen, edge);
    CombinedIsDigest(arenas, seen, Submit);
    CountIsLength(All(seen, edge));
    CountIsLength(All(seen, Submit));
  }

  // --- What a digest says ----------------------------------------------------------

  function Term0(r: Request): int {
    r.term0
  }

  function Term1(r: Request): int {
    r.term1
  }

  function Mask0(r: Request): Mask {
    r.mask0
  }

  function Mask1(r: Request): Mask {
    r.mask1
  }

  function SumOf(requests: seq<Request>, term: Request -> int): int {
    if requests == [] then 0 else SumOf(requests[..|requests| - 1], term) + term(requests[|requests| - 1])
  }

  /** In how many of the masks a bit is one. */
  function Ones(requests: seq<Request>, mask: Request -> Mask, bit: nat): nat {
    if requests == [] then 0
    else Ones(requests[..|requests| - 1], mask, bit) + if bit in mask(requests[|requests| - 1]) then 1 else 0
  }

  lemma PlusIsModular(a: Word, b: Word, x: int)
    requires a == x % 0x1_0000_0000_0000_0000
    ensures Plus(a, b) == (x + b) % 0x1_0000_0000_0000_0000
  {
  }

  /** A digest is the number of requests, the parity of every bit of their masks, and their
      sums modulo 2^64. */
  lemma {:induction false} DigestSpelled(requests: seq<Request>, bit: nat)
    ensures DigestOf(requests).count == |requests|
    ensures DigestOf(requests).sum0 == SumOf(requests, Term0) % 0x1_0000_0000_0000_0000
    ensures DigestOf(requests).sum1 == SumOf(requests, Term1) % 0x1_0000_0000_0000_0000
    ensures bit in DigestOf(requests).xor0 <==> Ones(requests, Mask0, bit) % 2 == 1
    ensures bit in DigestOf(requests).xor1 <==> Ones(requests, Mask1, bit) % 2 == 1
  {
    if requests != [] {
      var init, last := requests[..|requests| - 1], requests[|requests| - 1];
      DigestSpelled(init, bit);
      PlusIsModular(DigestOf(init).sum0, last.term0, SumOf(init, Term0));
      PlusIsModular(DigestOf(init).sum1, last.term1, SumOf(init, Term1));
    }
  }

  /** What the digest cannot tell apart. */
  ghost predicate LookAlike(a: seq<Request>, b: seq<Request>) {
    && |a| == |b|
    && SumOf(a, Term0) % 0x1_0000_0000_0000_0000 == SumOf(b, Term0) % 0x1_0000_0000_0000_0000
    && SumOf(a, Term1) % 0x1_0000_0000_0000_0000 == SumOf(b, Term1) % 0x1_0000_0000_0000_0000
    && (forall bit :: Ones(a, Mask0, bit) % 2 == Ones(b, Mask0, bit) % 2)
    && forall bit :: Ones(a, Mask1, bit) % 2 == Ones(b, Mask1, bit) % 2
  }

  /** Digests are equal exactly when number, sums and parities are. */
  lemma EqualExactly(a: seq<Request>, b: seq<Request>)
    ensures DigestOf(a) == DigestOf(b) <==> LookAlike(a, b)
  {
    DigestSpelled(a, 0);
    DigestSpelled(b, 0);
    forall bit: nat
      ensures bit in DigestOf(a).xor0 <==> Ones(a, Mask0, bit) % 2 == 1
      ensures bit in DigestOf(b).xor0 <==> Ones(b, Mask0, bit) % 2 == 1
      ensures bit in DigestOf(a).xor1 <==> Ones(a, Mask1, bit) % 2 == 1
      ensures bit in DigestOf(b).xor1 <==> Ones(b, Mask1, bit) % 2 == 1
    {
      DigestSpelled(a, bit);
      DigestSpelled(b, bit);
    }
  }

  lemma OneEdgeExactly(arenas: seq<Arena>, seen: seq<Seen>, edge: Edge)
    requires Keeps(arenas, seen)
    ensures CombineAll(arenas, edge) == CombineAll(arenas, Submit) <==> LookAlike(All(seen, edge), All(seen, Submit))
  {
    CombinedIsDigest(arenas, seen, edge);
    CombinedIsDigest(arenas, seen, Submit);
    EqualExactly(All(seen, edge), All(seen, Submit));
  }

  /** What passed an edge looks like what was submitted. */
  ghost predicate AllAlike(seen: seq<Seen>) {
    forall edge :: LookAlike(All(seen, edge), All(seen, Submit))
  }

  /** So the edges match exactly when the requests that passed them look alike. */
  lemma MatchExactly(arenas: seq<Arena>, seen: seq<Seen>)
    requires Keeps(arenas, seen)
    ensures EdgesMatch(arenas) <==> AllAlike(seen)
  {
    if EdgesMatch(arenas) {
      forall edge: Edge
        ensures LookAlike(All(seen, edge), All(seen, Submit))
      {
        OneEdgeExactly(arenas, seen, edge);
      }
    }
    if AllAlike(seen) {
      forall edge: Edge
        ensures CombineAll(arenas, edge) == CombineAll(arenas, Submit)
      {
        OneEdgeExactly(arenas, seen, edge);
      }
    }
  }
}
