/**
 * RDF terms and variable bindings (ottr/types.py): the three kinds of RDF
 * term of section 3 of RDF 1.1 Concepts and Abstract Syntax, plus the
 * SPARQL-style variables used as template parameters, and the well-known
 * IRIs the expansion engine and the parsers refer to.
 */
module Terms {
  import opened Wrappers

  datatype Term =
    | Iri(iri: string)
    | Literal(lexical: string, datatypeIri: Option<string>, language: Option<string>)
    | BNode(id: string)
    | Variable(name: string)

  /** What a variable can be bound to: one term, or a list of terms (a cross parameter). */
  datatype Value = One(term: Term) | Many(terms: seq<Term>)

  /** Variable bindings, keyed by the variable term. */
  type Bindings = map<Term, Value>

  const OTTR_NS: string := "http://ns.ottr.xyz/0.4/"
  const RDF_NS: string := "http://www.w3.org/1999/02/22-rdf-syntax-ns#"
  const RDFS_NS: string := "http://www.w3.org/2000/01/rdf-schema#"

  /** The `ottr:none` sentinel returned for an unbound variable. */
  const OTTR_NONE: Term := Iri(OTTR_NS + "none")

  /** Names of the base templates. */
  const OTTR_TRIPLE_URI: Term := Iri(OTTR_NS + "Triple")
  const OTTR_TYPE_URI: Term := Iri("http://tpl.ottr.xyz/rdf/0.1/Type")
  const OTTR_LABEL_URI: Term := Iri("http://tpl.ottr.xyz/rdfs/0.1/Label")

  const RDF_TYPE: string := RDF_NS + "type"
  const RDFS_LABEL: string := RDFS_NS + "label"
  const RDFS_RESOURCE: string := RDFS_NS + "Resource"
}
