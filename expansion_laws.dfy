/**
 * What expansion guarantees: a main template yields the concatenation of its
 * body's expansions in declaration order, a cross template re-expands its
 * inner instance once per list element in list order, `as_nt` only changes
 * how the chosen terms are shown, and neither the registry nor the blank-node
 * suffix influences the result.
 */
module ExpansionLaws {
  import opened Wrappers
  import opened Terms
  import opened Arguments
  import opened Parameters
  import opened Templates

  /** Runs the expansions in order; the first one that raises ends the sequence. */
  function Concat(parts: seq<Expansion>): Expansion
  {
    if parts == [] then Nothing else Then(parts[0], Concat(parts[1..]))
  }

  /** All the triples of all the parts, in order. */
  function Flatten(parts: seq<Expansion>): seq<RdfTriple>
  {
    if parts == [] then [] else parts[0].triples + Flatten(parts[1..])
  }

  predicate AllSucceed(parts: seq<Expansion>)
  {
    forall i :: 0 <= i < |parts| ==> parts[i].failure.None?
  }

  /** Running `a`, then `b`, then `c` does not depend on how the three are grouped. */
  lemma ThenAssociative(a: Expansion, b: Expansion, c: Expansion)
    ensures Then(Then(a, b), c) == Then(a, Then(b, c))
  {
  }

  /** Concatenation succeeds exactly when every part does, and then yields all their triples. */
  lemma {:induction false} ConcatSucceeds(parts: seq<Expansion>)
    ensures Concat(parts).failure.None? <==> AllSucceed(parts)
    ensures AllSucceed(parts) ==> Concat(parts).triples == Flatten(parts)
  {
    if parts != [] {
      ConcatSucceeds(parts[1..]);
      assert AllSucceed(parts) <==> parts[0].failure.None? && AllSucceed(parts[1..]) by {
        if AllSucceed(parts) {
          forall i | 0 <= i < |parts[1..]| ensures parts[1..][i].failure.None? {
            assert parts[1..][i] == parts[i + 1];
          }
        }
        if parts[0].failure.None? && AllSucceed(parts[1..]) {
          forall i | 0 < i < |parts| ensures parts[i].failure.None? {
            assert parts[i] == parts[1..][i - 1];
          }
        }
      }
    }
  }

  /**
   * An error ends the sequence where it occurs: what the parts before it
   * yielded, and what the failing part yielded before raising, stay yielded,
   * and nothing after it runs.
   */
  lemma {:induction false} ConcatStopsAtFirstFailure(parts: seq<Expansion>, j: nat)
    requires j < |parts| && parts[j].failure.Some?
    requires forall i :: 0 <= i < j ==> parts[i].failure.None?
    ensures Concat(parts) == Expansion(Flatten(parts[..j]) + parts[j].triples, parts[j].failure)
  {
    var head, tail := parts[0], parts[1..];
    assert Concat(parts) == Then(head, Concat(tail));
    if j == 0 {
      assert Flatten(parts[..0]) == [];
    } else {
      forall i | 0 <= i < j - 1
        ensures tail[i].failure.None?
      {
        assert tail[i] == parts[i + 1];
      }
      assert tail[j - 1] == parts[j];
      ConcatStopsAtFirstFailure(tail, j - 1);
      FlattenPrefix(parts, j);
      AppendAssociative(head.triples, Flatten(tail[..j - 1]), parts[j].triples);
    }
  }

  /** The triples of the first `j` parts: the first part's, then those of the next `j - 1`. */
  lemma FlattenPrefix(parts: seq<Expansion>, j: nat)
    requires 0 < j <= |parts|
    ensures Flatten(parts[..j]) == parts[0].triples + Flatten(parts[1..][..j - 1])
  {
    assert parts[..j][1..] == parts[1..][..j - 1];
  }

  lemma AppendAssociative<T>(a: seq<T>, b: seq<T>, c: seq<T>)
    ensures a + (b + c) == (a + b) + c
  {
  }

  /** When every part yields `k` triples, all of them together yield `|parts| * k`. */
  lemma {:induction false} FlattenUniform(parts: seq<Expansion>, k: nat)
    requires forall i :: 0 <= i < |parts| ==> |parts[i].triples| == k
    ensures |Flatten(parts)| == |parts| * k
  {
    if parts != [] {
      FlattenUniform(parts[1..], k);
    }
  }

  /** The expansions of the body instances, each under the same bindings. */
  function Each(ts: seq<Template>, b: Bindings, registry: Registry, suffix: BNodeSuffix, asNt: bool): (r: seq<Expansion>)
    ensures |r| == |ts|
    ensures forall i :: 0 <= i < |ts| ==> r[i] == Expand(ts[i], b, registry, suffix, asNt)
  {
    seq(|ts|, i requires 0 <= i < |ts| => Expand(ts[i], b, registry, suffix, asNt))
  }

  /** The expansions of the inner instance, one per list element, each under the rebound arguments. */
  function CrossEach(inner: Template, x: Term, vs: seq<Term>, b: Bindings, registry: Registry, suffix: BNodeSuffix,
                     asNt: bool): (r: seq<Expansion>)
    requires x in b
    ensures |r| == |vs|
    ensures forall i :: 0 <= i < |vs| ==> r[i] == Expand(inner, Rebind(b, x, vs[i]), registry, suffix, asNt)
  {
    seq(|vs|, i requires 0 <= i < |vs| => Expand(inner, Rebind(b, x, vs[i]), registry, suffix, asNt))
  }

  lemma {:induction false} ExpandAllIsConcat(ts: seq<Template>, b: Bindings, registry: Registry, suffix: BNodeSuffix,
                                             asNt: bool)
    ensures ExpandAll(ts, b, registry, suffix, asNt) == Concat(Each(ts, b, registry, suffix, asNt))
  {
    if ts != [] {
      ExpandAllIsConcat(ts[1..], b, registry, suffix, asNt);
      assert Each(ts, b, registry, suffix, asNt)[1..] == Each(ts[1..], b, registry, suffix, asNt);
    }
  }

  /**
   * `MainTemplate.expand` yields the expansions of its body instances in
   * declaration order, each under the caller's bindings; it succeeds exactly
   * when each of them does.
   */
  lemma MainIsConcatenation(name: Term, body: seq<Template>, b: Bindings, registry: Registry, suffix: BNodeSuffix,
                            asNt: bool)
    ensures Expand(Main(name, body), b, registry, suffix, asNt) == Concat(Each(body, b, registry, suffix, asNt))
    ensures Expand(Main(name, body), b, registry, suffix, asNt).failure.None? <==>
              forall i :: 0 <= i < |body| ==> Expand(body[i], b, registry, suffix, asNt).failure.None?
    ensures Expand(Main(name, body), b, registry, suffix, asNt).failure.None? ==>
              Expand(Main(name, body), b, registry, suffix, asNt).triples == Flatten(Each(body, b, registry, suffix, asNt))
  {
    ExpandAllIsConcat(body, b, registry, suffix, asNt);
    ConcatSucceeds(Each(body, b, registry, suffix, asNt));
  }

  /** A main template with an empty body yields nothing. */
  lemma MainEmptyYieldsNothing(name: Term, b: Bindings, registry: Registry, suffix: BNodeSuffix, asNt: bool)
    ensures Expand(Main(name, []), b, registry, suffix, asNt) == Nothing
  {
  }

  /** A body made only of triple templates that expands without error yields one triple per body instance. */
  lemma MainOfTriplesYieldsOneEach(name: Term, body: seq<Template>, b: Bindings, registry: Registry,
                                   suffix: BNodeSuffix, asNt: bool)
    requires forall i :: 0 <= i < |body| ==> body[i].Triple?
    requires Expand(Main(name, body), b, registry, suffix, asNt).failure.None?
    ensures |Expand(Main(name, body), b, registry, suffix, asNt).triples| == |body|
  {
    MainIsConcatenation(name, body, b, registry, suffix, asNt);
    FlattenUniform(Each(body, b, registry, suffix, asNt), 1);
  }

  lemma {:induction false} CrossAllIsConcat(inner: Template, x: Term, vs: seq<Term>, b: Bindings, registry: Registry,
                                            suffix: BNodeSuffix, asNt: bool)
    requires x in b
    ensures CrossAll(inner, x, vs, b, registry, suffix, asNt) == Concat(CrossEach(inner, x, vs, b, registry, suffix, asNt))
  {
    if vs != [] {
      CrossAllIsConcat(inner, x, vs[1..], b, registry, suffix, asNt);
      assert CrossEach(inner, x, vs, b, registry, suffix, asNt)[1..] == CrossEach(inner, x, vs[1..], b, registry, suffix, asNt);
    }
  }

  /** A cross template whose variable is not among the arguments yields nothing, and raises nothing. */
  lemma CrossAbsentYieldsNothing(name: Term, inner: Template, x: Term, b: Bindings, registry: Registry,
                                 suffix: BNodeSuffix, asNt: bool)
    requires x !in b
    ensures Expand(Cross(name, inner, x), b, registry, suffix, asNt) == Nothing
  {
  }

  /**
   * Over a list of N values, a cross template expands its inner instance N
   * times in list order, the i-th time under the arguments with only the
   * cross variable rebound to the i-th value.
   */
  lemma CrossIsConcatenation(name: Term, inner: Template, x: Term, vs: seq<Term>, b: Bindings, registry: Registry,
                             suffix: BNodeSuffix, asNt: bool)
    requires x in b && b[x] == Many(vs)
    ensures Expand(Cross(name, inner, x), b, registry, suffix, asNt) ==
            Concat(CrossEach(inner, x, vs, b, registry, suffix, asNt))
    ensures vs == [] ==> Expand(Cross(name, inner, x), b, registry, suffix, asNt) == Nothing
  {
    CrossAllIsConcat(inner, x, vs, b, registry, suffix, asNt);
  }

  /**
   * Cross cardinality: when every iteration yields `k` triples and none
   * raises, a cross over N values yields N * k triples.
   */
  lemma CrossCardinality(name: Term, inner: Template, x: Term, vs: seq<Term>, b: Bindings, registry: Registry,
                         suffix: BNodeSuffix, asNt: bool, k: nat)
    requires x in b && b[x] == Many(vs)
    requires forall i :: 0 <= i < |vs| ==> |Expand(inner, Rebind(b, x, vs[i]), registry, suffix, asNt).triples| == k
    requires Expand(Cross(name, inner, x), b, registry, suffix, asNt).failure.None?
    ensures |Expand(Cross(name, inner, x), b, registry, suffix, asNt).triples| == |vs| * k
  {
    var parts := CrossEach(inner, x, vs, b, registry, suffix, asNt);
    CrossIsConcatenation(name, inner, x, vs, b, registry, suffix, asNt);
    ConcatSucceeds(parts);
    FlattenUniform(parts, k);
  }

  /** A cross over a triple template that expands without error yields one triple per list element. */
  lemma CrossOverTripleYieldsOnePerElement(name: Term, inner: Template, x: Term, vs: seq<Term>, b: Bindings,
                                           registry: Registry, suffix: BNodeSuffix, asNt: bool)
    requires inner.Triple?
    requires x in b && b[x] == Many(vs)
    requires Expand(Cross(name, inner, x), b, registry, suffix, asNt).failure.None?
    ensures |Expand(Cross(name, inner, x), b, registry, suffix, asNt).triples| == |vs|
  {
    var parts := CrossEach(inner, x, vs, b, registry, suffix, asNt);
    CrossIsConcatenation(name, inner, x, vs, b, registry, suffix, asNt);
    ConcatSucceeds(parts);
    FlattenUniform(parts, 1);
  }

  lemma {:induction false} CrossAllTripleObjects(s: Term, p: Term, x: Term, vs: seq<Term>, b: Bindings,
                                                 registry: Registry, suffix: BNodeSuffix)
    requires x in b
    ensures CrossAll(OttrTriple(Argument(ConcreteArgument(s, 0)), Argument(ConcreteArgument(p, 1)),
                                Argument(VariableArgument(x, 2))), x, vs, b, registry, suffix, false) ==
            Expansion(seq(|vs|, i requires 0 <= i < |vs| => RdfTriple(Node(One(s)), Node(One(p)), Node(One(vs[i])))), None)
  {
    if vs != [] {
      CrossAllTripleObjects(s, p, x, vs[1..], b, registry, suffix);
    }
  }

  /**
   * A cross over `ottr:Triple(s, p, ?x)` with `?x` bound to a list yields one
   * triple per element, in list order, all with the same subject and
   * predicate, the i-th with the i-th element as object.
   */
  lemma CrossOverListedObject(name: Term, s: Term, p: Term, x: Term, vs: seq<Term>, b: Bindings, registry: Registry,
                              suffix: BNodeSuffix)
    requires x in b && b[x] == Many(vs)
    ensures var r := Expand(Cross(name, OttrTriple(Argument(ConcreteArgument(s, 0)), Argument(ConcreteArgument(p, 1)),
                                                   Argument(VariableArgument(x, 2))), x), b, registry, suffix, false);
            r.failure.None? && |r.triples| == |vs| &&
            forall i :: 0 <= i < |vs| ==> r.triples[i] == RdfTriple(Node(One(s)), Node(One(p)), Node(One(vs[i])))
  {
    CrossAllTripleObjects(s, p, x, vs, b, registry, suffix);
  }

  /** Neither the registry nor the blank-node suffix changes what a template yields. */
  lemma {:induction false} ExpandIgnoresRegistryAndSuffix(t: Template, b: Bindings, r1: Registry, s1: BNodeSuffix,
                                                          r2: Registry, s2: BNodeSuffix, asNt: bool)
    ensures Expand(t, b, r1, s1, asNt) == Expand(t, b, r2, s2, asNt)
    decreases t, 0, 0
  {
    match t
    case Triple(_, _, _, _) =>
    case Main(_, body) => ExpandAllIgnoresRegistryAndSuffix(body, b, r1, s1, r2, s2, asNt);
    case Cross(_, inner, x) =>
      if x in b && b[x].Many? {
        CrossAllIgnoresRegistryAndSuffix(inner, x, b[x].terms, b, r1, s1, r2, s2, asNt);
      }
  }

  lemma {:induction false} ExpandAllIgnoresRegistryAndSuffix(ts: seq<Template>, b: Bindings, r1: Registry,
                                                             s1: BNodeSuffix, r2: Registry, s2: BNodeSuffix, asNt: bool)
    ensures ExpandAll(ts, b, r1, s1, asNt) == ExpandAll(ts, b, r2, s2, asNt)
    decreases ts, 0, 0
  {
    if ts != [] {
      ExpandIgnoresRegistryAndSuffix(ts[0], b, r1, s1, r2, s2, asNt);
      ExpandAllIgnoresRegistryAndSuffix(ts[1..], b, r1, s1, r2, s2, asNt);
    }
  }

  lemma {:induction false} CrossAllIgnoresRegistryAndSuffix(inner: Template, x: Term, vs: seq<Term>, b: Bindings,
                                                            r1: Registry, s1: BNodeSuffix, r2: Registry,
                                                            s2: BNodeSuffix, asNt: bool)
    requires x in b
    ensures CrossAll(inner, x, vs, b, r1, s1, asNt) == CrossAll(inner, x, vs, b, r2, s2, asNt)
    decreases inner, 1, |vs|
  {
    if vs != [] {
      ExpandIgnoresRegistryAndSuffix(inner, Rebind(b, x, vs[0]), r1, s1, r2, s2, asNt);
      CrossAllIgnoresRegistryAndSuffix(inner, x, vs[1..], b, r1, s1, r2, s2, asNt);
    }
  }

  /** The three values a triple shows, whatever their representation. */
  function Shown(tr: RdfTriple): (Value, Value, Value)
  {
    (Chosen(tr.subj), Chosen(tr.pred), Chosen(tr.obj))
  }

  /** Two expansions that yield the same values, triple by triple. */
  predicate SameShown(e1: Expansion, e2: Expansion)
  {
    |e1.triples| == |e2.triples| &&
    forall i :: 0 <= i < |e1.triples| ==> Shown(e1.triples[i]) == Shown(e2.triples[i])
  }

  lemma ThenSameShown(a1: Expansion, b1: Expansion, a2: Expansion, b2: Expansion)
    requires a1.failure.None? && a2.failure.None?
    requires SameShown(a1, a2) && SameShown(b1, b2)
    ensures SameShown(Then(a1, b1), Then(a2, b2))
  {
    var t1, t2 := Then(a1, b1).triples, Then(a2, b2).triples;
    forall i | 0 <= i < |t1| ensures Shown(t1[i]) == Shown(t2[i]) {
      if i < |a1.triples| {
        assert t1[i] == a1.triples[i] && t2[i] == a2.triples[i];
      } else {
        assert t1[i] == b1.triples[i - |a1.triples|] && t2[i] == b2.triples[i - |a1.triples|];
      }
    }
  }

  /**
   * `as_nt` only selects the representation: whenever textual expansion
   * succeeds, plain expansion succeeds too and shows the same terms, triple
   * by triple.
   */
  lemma {:induction false} ExpandTextOnlyChangesForm(t: Template, b: Bindings, registry: Registry, suffix: BNodeSuffix)
    requires Expand(t, b, registry, suffix, true).failure.None?
    ensures Expand(t, b, registry, suffix, false).failure.None?
    ensures SameShown(Expand(t, b, registry, suffix, true), Expand(t, b, registry, suffix, false))
    decreases t, 0, 0
  {
    match t
    case Triple(_, s, p, o) =>
      ParameterOrArgumentTextOnlyChangesForm(s, b);
      ParameterOrArgumentTextOnlyChangesForm(p, b);
      ParameterOrArgumentTextOnlyChangesForm(o, b);
    case Main(_, body) => ExpandAllTextOnlyChangesForm(body, b, registry, suffix);
    case Cross(_, inner, x) =>
      if x in b && b[x].Many? {
        CrossAllTextOnlyChangesForm(inner, x, b[x].terms, b, registry, suffix);
      }
  }

  lemma {:induction false} ExpandAllTextOnlyChangesForm(ts: seq<Template>, b: Bindings, registry: Registry,
                                                        suffix: BNodeSuffix)
    requires ExpandAll(ts, b, registry, suffix, true).failure.None?
    ensures ExpandAll(ts, b, registry, suffix, false).failure.None?
    ensures SameShown(ExpandAll(ts, b, registry, suffix, true), ExpandAll(ts, b, registry, suffix, false))
    decreases ts, 0, 0
  {
    if ts != [] {
      ExpandTextOnlyChangesForm(ts[0], b, registry, suffix);
      ExpandAllTextOnlyChangesForm(ts[1..], b, registry, suffix);
      ThenSameShown(Expand(ts[0], b, registry, suffix, true), ExpandAll(ts[1..], b, registry, suffix, true),
                    Expand(ts[0], b, registry, suffix, false), ExpandAll(ts[1..], b, registry, suffix, false));
    }
  }

  lemma {:induction false} CrossAllTextOnlyChangesForm(inner: Template, x: Term, vs: seq<Term>, b: Bindings,
                                                       registry: Registry, suffix: BNodeSuffix)
    requires x in b
    requires CrossAll(inner, x, vs, b, registry, suffix, true).failure.None?
    ensures CrossAll(inner, x, vs, b, registry, suffix, false).failure.None?
    ensures SameShown(CrossAll(inner, x, vs, b, registry, suffix, true), CrossAll(inner, x, vs, b, registry, suffix, false))
    decreases inner, 1, |vs|
  {
    if vs != [] {
      var local := Rebind(b, x, vs[0]);
      ExpandTextOnlyChangesForm(inner, local, registry, suffix);
      CrossAllTextOnlyChangesForm(inner, x, vs[1..], b, registry, suffix);
      ThenSameShown(Expand(inner, local, registry, suffix, true), CrossAll(inner, x, vs[1..], b, registry, suffix, true),
                    Expand(inner, local, registry, suffix, false), CrossAll(inner, x, vs[1..], b, registry, suffix, false));
    }
  }

  lemma ParameterOrArgumentTextOnlyChangesForm(o: Operand, b: Bindings)
    ensures Evaluate(o, b, true).Ok? ==> Chosen(Evaluate(o, b, true).value) == Chosen(Evaluate(o, b, false).value)
  {
    match o
    case Argument(a) => ArgumentTextOnlyChangesForm(a, b);
    case Parameter(p) => ParameterTextOnlyChangesForm(p, b);
  }

  /**
   * The input that shows it: a main template whose body is one `ottr:Triple`
   * raises at the call of the triple's `expand` as written, where one triple
   * was intended.
   */
  lemma MainOverTripleAsWritten()
    ensures var triple := OttrTriple(Argument(ConcreteArgument(BNode("person"), 0)), Argument(URIArgument(RDF_TYPE, 1)),
                                     Argument(ConcreteArgument(Iri("http://xmlns.com/foaf/0.1/Person"), 2)));
            var t := Main(Iri("http://example.org#Person"), [triple]);
            ExpandAsWritten(t, map[], ShortCall, false) == Expansion([], Some(SignatureMismatch)) &&
            Expand(t, map[], map[], (0, 0), false) ==
              Expansion([RdfTriple(Node(One(BNode("person"))), Node(One(Iri(RDF_TYPE))),
                                   Node(One(Iri("http://xmlns.com/foaf/0.1/Person"))))], None)
  {
    var triple := OttrTriple(Argument(ConcreteArgument(BNode("person"), 0)), Argument(URIArgument(RDF_TYPE, 1)),
                             Argument(ConcreteArgument(Iri("http://xmlns.com/foaf/0.1/Person"), 2)));
    assert ExpandAsWritten(triple, map[], ShortCall, false) == Expansion([], Some(SignatureMismatch));
    assert ExpandAllAsWritten([triple][1..], map[], false) == Nothing;
    assert Expand(triple, map[], map[], (0, 0), false).triples ==
             [RdfTriple(Node(One(BNode("person"))), Node(One(Iri(RDF_TYPE))),
                        Node(One(Iri("http://xmlns.com/foaf/0.1/Person"))))];
    assert ExpandAll([triple][1..], map[], map[], (0, 0), false) == Nothing;
  }
}
