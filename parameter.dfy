/**
 * Instance parameters (ottr/base/parameter.py): the older form of call-site
 * argument, holding a term and a list of constraints that evaluation never
 * consults.
 */
module Parameters {
  import opened Wrappers
  import opened Terms
  import opened Arguments

  /**
   * What an instance parameter stores as its constraints: the default empty
   * list, or, when the stOTTR parser builds it, the argument's index, which
   * that parser passes in the constraints slot.
   */
  datatype Constraints = ConstraintList(items: seq<Term>) | IndexAsConstraints(index: nat)

  datatype InstanceParameter =
    | ConcreteParameter(value: Term, constraints: Constraints)
    | VariableParameter(value: Term, constraints: Constraints)

  /**
   * `evaluate(bindings, as_nt)`, with the absent-variable case returning the
   * `ottr:none` IRI (see EvaluateParameterAsWritten for the code as written).
   */
  function EvaluateParameter(p: InstanceParameter, b: Bindings, asNt: bool): (r: Result<Component, EvalError>)
    ensures p.ConcreteParameter? ==> r.Ok? && Chosen(r.value) == One(p.value) && (r.value.NText? <==> asNt)
    ensures p.VariableParameter? && p.value in b ==>
              (r.Ok? <==> !asNt || b[p.value].One?) &&
              (r.Ok? ==> Chosen(r.value) == b[p.value] && (r.value.NText? <==> asNt))
    ensures p.VariableParameter? && p.value !in b ==> r == Ok(Node(One(OTTR_NONE)))
  {
    match p
    case ConcreteParameter(v, _) => Ok(Constant(v, asNt))
    case VariableParameter(x, _) => Lookup(x, b, asNt)
  }

  /**
   * `VariableParameter.evaluate` as written: for an absent variable it calls
   * the namespace object `OTTR('none')`, and a namespace is a string, not a
   * callable, so the call raises.
   */
  function EvaluateParameterAsWritten(p: InstanceParameter, b: Bindings, asNt: bool): (r: Result<Component, EvalError>)
    ensures p.VariableParameter? && p.value !in b ==> r == Err(NamespaceNotCallable)
    ensures !(p.VariableParameter? && p.value !in b) ==> r == EvaluateParameter(p, b, asNt)
  {
    match p
    case ConcreteParameter(v, _) => Ok(Constant(v, asNt))
    case VariableParameter(x, _) => if x in b then Lookup(x, b, asNt) else Err(NamespaceNotCallable)
  }

  /** The discrepancy: an unbound variable parameter raises as written, where `ottr:none` was intended. */
  lemma AbsentParameterRaisesAsWritten(x: Term, c: Constraints, b: Bindings, asNt: bool)
    requires x !in b
    ensures EvaluateParameterAsWritten(VariableParameter(x, c), b, asNt).Err?
    ensures EvaluateParameter(VariableParameter(x, c), b, asNt) == Ok(Node(One(OTTR_NONE)))
  {
  }

  /** Evaluation never consults the stored constraints. */
  lemma EvaluationIgnoresConstraints(p: InstanceParameter, c: Constraints, b: Bindings, asNt: bool)
    ensures EvaluateParameter(p.(constraints := c), b, asNt) == EvaluateParameter(p, b, asNt)
  {
  }

  /** A concrete parameter's value does not depend on the bindings. */
  lemma ConcreteParameterIgnoresBindings(v: Term, c: Constraints, b1: Bindings, b2: Bindings, asNt: bool)
    ensures EvaluateParameter(ConcreteParameter(v, c), b1, asNt) == EvaluateParameter(ConcreteParameter(v, c), b2, asNt)
  {
  }

  /** `as_nt` selects only the representation of the same value. */
  lemma ParameterTextOnlyChangesForm(p: InstanceParameter, b: Bindings)
    ensures EvaluateParameter(p, b, false).Ok?
    ensures EvaluateParameter(p, b, true).Ok? ==>
              Chosen(EvaluateParameter(p, b, true).value) == Chosen(EvaluateParameter(p, b, false).value)
  {
  }
}
