/**
 * The template tree and its expansion (ottr/base/template.py,
 * ottr/base/base_templates.py, ottr/base/expansion.py).
 *
 * A template turns a map of variable bindings into an ordered sequence of
 * triples. The three kinds of template node are one variant each of
 * `Template`, and their three `expand` methods are the single function
 * `Expand`, which takes every parameter any of them takes: the registry of
 * named templates and the blank-node suffix are passed down unchanged and no
 * variant consults them.
 */
module Templates {
  import opened Wrappers
  import opened Terms
  import opened Arguments
  import opened Parameters

  /** What a triple template holds in each slot: an instance argument or an instance parameter. */
  datatype Operand = Argument(arg: InstanceArgument) | Parameter(param: InstanceParameter)

  /** `evaluate(bindings, as_nt)` on whichever kind of operand the slot holds. */
  function Evaluate(o: Operand, b: Bindings, asNt: bool): (r: Result<Component, EvalError>)
    ensures !asNt ==> r.Ok? && r.value.Node?
    ensures r.Ok? && r.value.Node? && asNt ==> r.value == Node(One(OTTR_NONE))
    ensures r.Err? ==> asNt && r.error.NoTextForm?
  {
    match o
    case Argument(a) => EvaluateArgument(a, b, asNt)
    case Parameter(p) => EvaluateParameter(p, b, asNt)
  }

  datatype RdfTriple = RdfTriple(subj: Component, pred: Component, obj: Component)

  datatype ExpandError =
    | EvaluationFailed(cause: EvalError)
    | CrossOverTerm(variable: Term)   // the cross variable is bound to a single term, not a list
    | SignatureMismatch              // an `expand` called with arguments its signature rejects

  /**
   * The outcome of an expansion: the triples yielded, in order, and the error
   * that ended the sequence, if one did. Triples yielded before an error stay
   * yielded.
   */
  datatype Expansion = Expansion(triples: seq<RdfTriple>, failure: Option<ExpandError>)

  /** Yields nothing, without error. */
  const Nothing: Expansion := Expansion([], None)

  /** `yield from a` followed by `yield from b`: `b` runs only when `a` ended normally. */
  function Then(a: Expansion, b: Expansion): (r: Expansion)
    ensures a.triples <= r.triples
    ensures r.failure.None? <==> a.failure.None? && b.failure.None?
    ensures a.failure.None? ==> |r.triples| == |a.triples| + |b.triples|
    ensures a.failure.None? ==> r.triples[|a.triples|..] == b.triples && r.failure == b.failure
    ensures a.failure.Some? ==> r == a
  {
    if a.failure.Some? then a else Expansion(a.triples + b.triples, b.failure)
  }

  /** Name -> template, as `all_templates` / the generator's registry. */
  type Registry = map<Term, Template>

  /** The blank-node suffix `(execution id, instance ordinal)`. */
  type BNodeSuffix = (int, int)

  datatype Template =
    | Triple(name: Term, subj: Operand, pred: Operand, obj: Operand)  // OttrTriple and its subclasses
    | Main(name: Term, instances: seq<Template>)                                 // MainTemplate
    | Cross(name: Term, inner: Template, crossVariable: Term)                   // CrossTemplate

  /** `OttrTriple(subject, predicate, object)`: the `ottr:Triple` base template. */
  function OttrTriple(s: Operand, p: Operand, o: Operand): (t: Template)
    ensures t.Triple? && t.name == OTTR_TRIPLE_URI
    ensures t.subj == s && t.pred == p && t.obj == o
    ensures IsBase(t)
  {
    Triple(OTTR_TRIPLE_URI, s, p, o)
  }

  /** `OttrType(subject, object)`: a triple whose predicate is the constant `rdf:type`. */
  function OttrType(s: Operand, o: Operand): (t: Template)
    ensures t.Triple? && t.name == OTTR_TYPE_URI && t.subj == s && t.obj == o
    ensures IsBase(t)
    ensures forall b: Bindings, asNt: bool {:trigger Evaluate(t.pred, b, asNt)} ::
              Evaluate(t.pred, b, asNt).Ok? && Chosen(Evaluate(t.pred, b, asNt).value) == One(Iri(RDF_TYPE))
  {
    Triple(OTTR_TYPE_URI, s, Argument(URIArgument(RDF_TYPE, 1)), o)
  }

  /** `OttrLabel(subject, object)`: a triple whose predicate is the constant `rdfs:label`. */
  function OttrLabel(s: Operand, o: Operand): (t: Template)
    ensures t.Triple? && t.name == OTTR_LABEL_URI && t.subj == s && t.obj == o
    ensures IsBase(t)
    ensures forall b: Bindings, asNt: bool {:trigger Evaluate(t.pred, b, asNt)} ::
              Evaluate(t.pred, b, asNt).Ok? && Chosen(Evaluate(t.pred, b, asNt).value) == One(Iri(RDFS_LABEL))
  {
    Triple(OTTR_LABEL_URI, s, Argument(URIArgument(RDFS_LABEL, 1)), o)
  }

  /**
   * `is_base()`: only the triple templates are base templates, and a base
   * template expands on its own into exactly one triple, or into nothing and an error.
   */
  predicate IsBase(t: Template)
    ensures IsBase(t) ==>
              forall b: Bindings, registry: Registry, suffix: BNodeSuffix, asNt: bool
                {:trigger Expand(t, b, registry, suffix, asNt)} ::
                |Expand(t, b, registry, suffix, asNt).triples| ==
                  (if Expand(t, b, registry, suffix, asNt).failure.None? then 1 else 0)
  {
    t.Triple?
  }

  /**
   * The one triple `OttrTriple.expand` yields: subject, predicate and object
   * evaluated under the same bindings, in that order; the first evaluation
   * that raises ends the expansion before anything is yielded.
   */
  function EmitTriple(s: Operand, p: Operand, o: Operand, b: Bindings, asNt: bool): (r: Expansion)
    ensures |r.triples| <= 1
    ensures r.failure.None? <==> Evaluate(s, b, asNt).Ok? && Evaluate(p, b, asNt).Ok? && Evaluate(o, b, asNt).Ok?
    ensures r.failure.None? ==>
              r.triples == [RdfTriple(Evaluate(s, b, asNt).value, Evaluate(p, b, asNt).value, Evaluate(o, b, asNt).value)]
    ensures r.failure.Some? ==> r.triples == []
  {
    match Evaluate(s, b, asNt)
    case Err(e) => Expansion([], Some(EvaluationFailed(e)))
    case Ok(cs) =>
      match Evaluate(p, b, asNt)
      case Err(e) => Expansion([], Some(EvaluationFailed(e)))
      case Ok(cp) =>
        match Evaluate(o, b, asNt)
        case Err(e) => Expansion([], Some(EvaluationFailed(e)))
        case Ok(co) => Expansion([RdfTriple(cs, cp, co)], None)
  }

  /** The arguments with only the cross variable `x` rebound to the single term `v`. */
  function Rebind(b: Bindings, x: Term, v: Term): (r: Bindings)
    requires x in b
    ensures r.Keys == b.Keys
    ensures r[x] == One(v)
    ensures forall k :: k in b && k != x ==> r[k] == b[k]
  {
    b[x := One(v)]
  }

  /**
   * The copy loop of `CrossTemplate.expand`: a fresh map built key by key
   * from the arguments, with the cross variable's entry replaced.
   */
  method CopyWithRebinding(arguments: Bindings, x: Term, value: Term) returns (local: Bindings)
    requires x in arguments
    ensures local == Rebind(arguments, x, value)
  {
    local := map[];
    var pending := arguments.Keys;
    while pending != {}
      invariant pending <= arguments.Keys
      invariant local.Keys == arguments.Keys - pending
      invariant forall k :: k in local ==> local[k] == if k == x then One(value) else arguments[k]
      decreases pending
    {
      var k :| k in pending;
      if k == x {
        local := local[k := One(value)];
      } else {
        local := local[k := arguments[k]];
      }
      pending := pending - {k};
    }
  }

  /** The expansion of a template node under `b`. */
  function Expand(t: Template, b: Bindings, registry: Registry, suffix: BNodeSuffix, asNt: bool): (r: Expansion)
    ensures r.failure.Some? ==>
              r.failure.value.CrossOverTerm? || (asNt && r.failure.value.EvaluationFailed? && r.failure.value.cause.NoTextForm?)
    decreases t, 0, 0
  {
    match t
    case Triple(_, s, p, o) => EmitTriple(s, p, o, b, asNt)
    case Main(_, body) => ExpandAll(body, b, registry, suffix, asNt)
    case Cross(_, inner, x) =>
      if x !in b then Nothing
      else match b[x]
        case Many(vs) => CrossAll(inner, x, vs, b, registry, suffix, asNt)
        case One(_) => Expansion([], Some(CrossOverTerm(x)))
  }

  /** `MainTemplate.expand`: each body instance in turn, under the same bindings. */
  function ExpandAll(ts: seq<Template>, b: Bindings, registry: Registry, suffix: BNodeSuffix, asNt: bool): (r: Expansion)
    ensures r.failure.Some? ==>
              r.failure.value.CrossOverTerm? || (asNt && r.failure.value.EvaluationFailed? && r.failure.value.cause.NoTextForm?)
    decreases ts, 0, 0
  {
    if ts == [] then Nothing
    else Then(Expand(ts[0], b, registry, suffix, asNt), ExpandAll(ts[1..], b, registry, suffix, asNt))
  }

  /** The loop of `CrossTemplate.expand`: the inner instance once per list element, in list order. */
  function CrossAll(inner: Template, x: Term, vs: seq<Term>, b: Bindings, registry: Registry, suffix: BNodeSuffix,
                    asNt: bool): (r: Expansion)
    requires x in b
    ensures r.failure.Some? ==>
              r.failure.value.CrossOverTerm? || (asNt && r.failure.value.EvaluationFailed? && r.failure.value.cause.NoTextForm?)
    decreases inner, 1, |vs|
  {
    if vs == [] then Nothing
    else Then(Expand(inner, Rebind(b, x, vs[0]), registry, suffix, asNt),
              CrossAll(inner, x, vs[1..], b, registry, suffix, asNt))
  }

  /**
   * How `expand` is called in the source. `ShortCall` is `expand(arguments,
   * as_nt=...)`, used by `MainTemplate` on its body and by
   * `OttrInstances.execute`; `CrossCall` is `expand(arguments, all_templates,
   * bnode_suffix=..., as_nt=...)`, used by `CrossTemplate` on its inner
   * instance.
   */
  datatype CallShape = ShortCall | CrossCall

  /**
   * Expansion as the three `expand` signatures make it: `OttrTriple.expand`
   * takes `(arguments, all_templates, as_nt)` and accepts neither shape,
   * `MainTemplate.expand` takes `(parameters, as_nt)` and accepts only the
   * short call, `CrossTemplate.expand` needs `all_templates` and accepts only
   * the cross call. A rejected call raises before anything is yielded.
   */
  function ExpandAsWritten(t: Template, b: Bindings, shape: CallShape, asNt: bool): (r: Expansion)
    ensures r.triples == []
    decreases t, 0, 0
  {
    match t
    case Triple(_, _, _, _) => Expansion([], Some(SignatureMismatch))
    case Main(_, body) =>
      if shape != ShortCall then Expansion([], Some(SignatureMismatch))
      else ExpandAllAsWritten(body, b, asNt)
    case Cross(_, inner, x) =>
      if shape != CrossCall then Expansion([], Some(SignatureMismatch))
      else if x !in b then Nothing
      else match b[x]
        case Many(vs) => CrossAllAsWritten(inner, x, vs, b, asNt)
        case One(_) => Expansion([], Some(CrossOverTerm(x)))
  }

  function ExpandAllAsWritten(ts: seq<Template>, b: Bindings, asNt: bool): (r: Expansion)
    ensures r.triples == []
    decreases ts, 0, 0
  {
    if ts == [] then Nothing
    else Then(ExpandAsWritten(ts[0], b, ShortCall, asNt), ExpandAllAsWritten(ts[1..], b, asNt))
  }

  function CrossAllAsWritten(inner: Template, x: Term, vs: seq<Term>, b: Bindings, asNt: bool): (r: Expansion)
    requires x in b
    ensures r.triples == []
    decreases inner, 1, |vs|
  {
    if vs == [] then Nothing
    else Then(ExpandAsWritten(inner, Rebind(b, x, vs[0]), CrossCall, asNt), CrossAllAsWritten(inner, x, vs[1..], b, asNt))
  }
}
