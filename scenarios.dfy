/**
 * The `ex:Person` example: a definition with one `o-rdf:Type` and three `ottr:Triple` instances,
 * called with "Ann", "Strong" and a mailbox.
 */
module Scenarios {
  import opened Wrappers
  import opened Terms
  import opened Arguments
  import opened Parameters
  import opened Templates
  import opened StottrParser

  const FOAF_NS: string := "http://xmlns.com/foaf/0.1/"
  const PERSON_NODE: Term := BNode("person")
  const ANN: Term := Literal("Ann", None, None)
  const STRONG: Term := Literal("Strong", None, None)
  const MAILBOX: Term := Iri("mailto:ann.strong@gmail.com")

  /** The body instances as the stOTTR parser builds them: each argument classified with its index. */
  const PERSON_BODY: seq<Template> := [
    Construct(TypeConstructor, [Classify(PERSON_NODE, 0), Classify(Iri(FOAF_NS + "Person"), 1)]),
    Construct(TripleConstructor, [Classify(PERSON_NODE, 0), Classify(Iri(FOAF_NS + "firstName"), 1),
                                  Classify(Variable("firstName"), 2)]),
    Construct(TripleConstructor, [Classify(PERSON_NODE, 0), Classify(Iri(FOAF_NS + "lastName"), 1),
                                  Classify(Variable("lastName"), 2)]),
    Construct(TripleConstructor, [Classify(PERSON_NODE, 0), Classify(Iri(FOAF_NS + "mbox"), 1),
                                  Classify(Variable("email"), 2)])]

  const PERSON_BINDINGS: Bindings :=
    map[Variable("firstName") := One(ANN), Variable("lastName") := One(STRONG), Variable("email") := One(MAILBOX)]

  function NodeTriple(s: Term, p: Term, o: Term): RdfTriple
  {
    RdfTriple(Node(One(s)), Node(One(p)), Node(One(o)))
  }

  /** Expanding the definition as nodes yields the four expected triples, in body order, and no error. */
  lemma PersonExpansion(registry: Registry, suffix: BNodeSuffix)
    ensures Expand(Main(Iri("http://example.org#Person"), PERSON_BODY), PERSON_BINDINGS, registry, suffix, false) ==
            Expansion([NodeTriple(PERSON_NODE, Iri(RDF_TYPE), Iri(FOAF_NS + "Person")),
                       NodeTriple(PERSON_NODE, Iri(FOAF_NS + "firstName"), ANN),
                       NodeTriple(PERSON_NODE, Iri(FOAF_NS + "lastName"), STRONG),
                       NodeTriple(PERSON_NODE, Iri(FOAF_NS + "mbox"), MAILBOX)], None)
  {
    var b, body := PERSON_BINDINGS, PERSON_BODY;
    assert Variable("firstName") in b && b[Variable("firstName")] == One(ANN);
    assert Variable("lastName") in b && b[Variable("lastName")] == One(STRONG);
    assert Variable("email") in b && b[Variable("email")] == One(MAILBOX);
    var t0 := NodeTriple(PERSON_NODE, Iri(RDF_TYPE), Iri(FOAF_NS + "Person"));
    var t1 := NodeTriple(PERSON_NODE, Iri(FOAF_NS + "firstName"), ANN);
    var t2 := NodeTriple(PERSON_NODE, Iri(FOAF_NS + "lastName"), STRONG);
    var t3 := NodeTriple(PERSON_NODE, Iri(FOAF_NS + "mbox"), MAILBOX);
    assert Expand(body[0], b, registry, suffix, false) == Expansion([t0], None);
    assert Expand(body[1], b, registry, suffix, false) == Expansion([t1], None);
    assert Expand(body[2], b, registry, suffix, false) == Expansion([t2], None);
    assert Expand(body[3], b, registry, suffix, false) == Expansion([t3], None);
    assert body[3..][1..] == [];
    assert ExpandAll(body[3..], b, registry, suffix, false) == Expansion([t3], None);
    assert body[2..][1..] == body[3..];
    assert ExpandAll(body[2..], b, registry, suffix, false) == Expansion([t2, t3], None);
    assert body[1..][1..] == body[2..];
    assert ExpandAll(body[1..], b, registry, suffix, false) == Expansion([t1, t2, t3], None);
  }
}
