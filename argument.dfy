/**
 * Instance arguments (ottr/base/argument.py): the arguments of a template
 * call site, which evaluate to an RDF term under a set of bindings.
 */
module Arguments {
  import opened Wrappers
  import opened Terms

  /**
   * One component of an emitted triple: the chosen value itself, or the
   * textual N-Triples form of a term (what `n3()` returns). The text is kept
   * symbolic: `NText(t)` stands for the string `t.n3()`.
   */
  datatype Component = Node(value: Value) | NText(term: Term)

  /** The value a component shows, whatever its representation. */
  function Chosen(c: Component): Value
  {
    match c
    case Node(v) => v
    case NText(t) => One(t)
  }

  /** Errors raised while evaluating an argument. */
  datatype EvalError =
    | NoTextForm(variable: Term)   // `n3()` called on a list binding
    | NamespaceNotCallable         // `OTTR('none')` on a namespace object

  /** A constant term, as a node or as text depending on `asNt`. */
  function Constant(v: Term, asNt: bool): (r: Component)
    ensures Chosen(r) == One(v)
    ensures r.NText? <==> asNt
  {
    if asNt then NText(v) else Node(One(v))
  }

  /**
   * Looks a variable up in the bindings: the bound value when present (as
   * text when `asNt`), the `ottr:none` sentinel, never as text, when absent.
   */
  function Lookup(x: Term, b: Bindings, asNt: bool): (r: Result<Component, EvalError>)
    ensures x !in b ==> r == Ok(Node(One(OTTR_NONE)))
    ensures r.Err? <==> x in b && asNt && b[x].Many?
    ensures x in b && r.Ok? ==> Chosen(r.value) == b[x] && (r.value.NText? <==> asNt)
  {
    if x !in b then Ok(Node(One(OTTR_NONE)))
    else if !asNt then Ok(Node(b[x]))
    else match b[x]
      case One(t) => Ok(NText(t))
      case Many(_) => Err(NoTextForm(x))
  }

  /** `ConcreteArgument` (a constant) or `VariableArgument` (a variable), with its position. */
  datatype InstanceArgument =
    | ConcreteArgument(value: Term, position: int)
    | VariableArgument(value: Term, position: int)
  {
    /**
     * Only a concrete argument is bound: its evaluation does not depend on the
     * bindings, where an unbound one evaluates to `ottr:none` without them.
     */
    predicate IsBound()
      ensures IsBound() ==> forall b: Bindings, asNt: bool {:trigger EvaluateArgument(this, b, asNt)} ::
                              EvaluateArgument(this, b, asNt) == EvaluateArgument(this, map[], asNt)
      ensures !IsBound() ==> EvaluateArgument(this, map[], false) == Ok(Node(One(OTTR_NONE)))
    {
      ConcreteArgument?
    }
  }

  /** A concrete argument holding the IRI `uri`. */
  function URIArgument(uri: string, position: int): (a: InstanceArgument)
    ensures a.IsBound()
    ensures a.value == Iri(uri) && a.position == position
  {
    ConcreteArgument(Iri(uri), position)
  }

  /** `evaluate(bindings, as_nt)` of an instance argument. */
  function EvaluateArgument(a: InstanceArgument, b: Bindings, asNt: bool): (r: Result<Component, EvalError>)
    ensures a.ConcreteArgument? ==> r.Ok? && Chosen(r.value) == One(a.value) && (r.value.NText? <==> asNt)
    ensures a.VariableArgument? && a.value in b ==>
              (r.Ok? <==> !asNt || b[a.value].One?) &&
              (r.Ok? ==> Chosen(r.value) == b[a.value] && (r.value.NText? <==> asNt))
    ensures a.VariableArgument? && a.value !in b ==> r == Ok(Node(One(OTTR_NONE)))
  {
    match a
    case ConcreteArgument(v, _) => Ok(Constant(v, asNt))
    case VariableArgument(x, _) => Lookup(x, b, asNt)
  }

  /** A concrete argument's value does not depend on the bindings. */
  lemma ConcreteIgnoresBindings(a: InstanceArgument, b1: Bindings, b2: Bindings, asNt: bool)
    requires a.IsBound()
    ensures EvaluateArgument(a, b1, asNt) == EvaluateArgument(a, b2, asNt)
  {
  }

  /** `URIArgument(uri, pos)` evaluates to the IRI `uri` under any bindings. */
  lemma URIArgumentConstant(uri: string, position: int, b: Bindings, asNt: bool)
    ensures EvaluateArgument(URIArgument(uri, position), b, asNt).Ok?
    ensures Chosen(EvaluateArgument(URIArgument(uri, position), b, asNt).value) == One(Iri(uri))
  {
  }

  /**
   * `as_nt` changes only the representation: plain evaluation never fails,
   * and when textual evaluation succeeds it shows the same value.
   */
  lemma ArgumentTextOnlyChangesForm(a: InstanceArgument, b: Bindings)
    ensures EvaluateArgument(a, b, false).Ok?
    ensures EvaluateArgument(a, b, true).Ok? ==>
              Chosen(EvaluateArgument(a, b, true).value) == Chosen(EvaluateArgument(a, b, false).value)
  {
  }
}
