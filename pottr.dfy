/**
 * The pOTTR parser after lexing (ottr/parsers/pottr/parser.py): only
 * `ottr:Triple` instances become templates; every other instance becomes
 * nothing (`None`).
 */
module PottrParser {
  import opened Wrappers
  import opened Terms
  import opened Parameters
  import opened Templates
  import opened Syntax

  /** A parameter of a template definition, as `parse_template_parameter` records it. */
  datatype TemplateParameter = TemplateParameter(name: Term, position: nat, typeIri: string, optional: bool, nonblank: bool)

  /**
   * `parse_template_parameter`: records the given position; the type is
   * `rdfs:Resource` unless a type token is present; each flag is set exactly
   * when its token is present.
   */
  function ParseTemplateParameter(param: ParamToken, position: nat, nsm: NamespaceManager, fromN3: FromN3)
    : (r: TemplateParameter)
    ensures r.name == ParseTerm(param.value, nsm, fromN3) && r.position == position
    ensures param.typeToken == [] ==> r.typeIri == RDFS_RESOURCE
    ensures param.typeToken != [] ==> r.typeIri == param.typeToken
    ensures r.optional <==> param.optionalToken != []
    ensures r.nonblank <==> param.nonblankToken != []
  {
    TemplateParameter(ParseTerm(param.value, nsm, fromN3), position,
                      if |param.typeToken| > 0 then param.typeToken else RDFS_RESOURCE,
                      |param.optionalToken| > 0,
                      |param.nonblankToken| > 0)
  }

  /** A parsed argument as a `VariableParameter` when it is a variable, a `ConcreteParameter` otherwise, with no constraints. */
  function ToParameter(value: Term): (p: InstanceParameter)
    ensures p.value == value && p.constraints == ConstraintList([])
    ensures p.VariableParameter? <==> value.Variable?
  {
    if value.Variable? then VariableParameter(value, ConstraintList([])) else ConcreteParameter(value, ConstraintList([]))
  }

  /** The arguments of an `ottr:Triple` instance, converted in order. */
  function TripleArguments(texts: seq<string>, nsm: NamespaceManager, fromN3: FromN3): (r: seq<InstanceParameter>)
    ensures |r| == |texts|
    ensures forall i :: 0 <= i < |texts| ==> r[i] == ToParameter(ParseTerm(texts[i], nsm, fromN3))
  {
    seq(|texts|, i requires 0 <= i < |texts| => ToParameter(ParseTerm(texts[i], nsm, fromN3)))
  }

  datatype ParseError =
    | IndexError(given: nat)  // an `ottr:Triple` instance with fewer than three arguments

  /** What `parse_template_instance` returns or raises. */
  function TemplateInstance(instance: InstanceToken, nsm: NamespaceManager, fromN3: FromN3)
    : (r: Result<Option<Template>, ParseError>)
    ensures ParseTerm(instance.name, nsm, fromN3) != OTTR_TRIPLE_URI ==> r == Ok(None)
    ensures ParseTerm(instance.name, nsm, fromN3) == OTTR_TRIPLE_URI ==>
              (r.Err? <==> |instance.parameters| < 3) &&
              (r.Err? ==> r.error == IndexError(|instance.parameters|))
    ensures ParseTerm(instance.name, nsm, fromN3) == OTTR_TRIPLE_URI && |instance.parameters| >= 3 ==>
              r == Ok(Some(OttrTriple(Parameter(ToParameter(ParseTerm(instance.parameters[0], nsm, fromN3))),
                                      Parameter(ToParameter(ParseTerm(instance.parameters[1], nsm, fromN3))),
                                      Parameter(ToParameter(ParseTerm(instance.parameters[2], nsm, fromN3))))))
  {
    if ParseTerm(instance.name, nsm, fromN3) == OTTR_TRIPLE_URI then
      var params := TripleArguments(instance.parameters, nsm, fromN3);
      if |params| < 3 then Err(IndexError(|params|))
      else Ok(Some(OttrTriple(Parameter(params[0]), Parameter(params[1]), Parameter(params[2]))))
    else Ok(None)
  }

  /** `parse_template_instance`: converts every argument, then builds the triple from the first three. */
  method ParseTemplateInstance(instance: InstanceToken, nsm: NamespaceManager, fromN3: FromN3)
    returns (r: Result<Option<Template>, ParseError>)
    ensures r == TemplateInstance(instance, nsm, fromN3)
  {
    var name := ParseTerm(instance.name, nsm, fromN3);
    if name == OTTR_TRIPLE_URI {
      var params: seq<InstanceParameter> := [];
      for i := 0 to |instance.parameters|
        invariant |params| == i
        invariant forall j :: 0 <= j < i ==> params[j] == ToParameter(ParseTerm(instance.parameters[j], nsm, fromN3))
      {
        var value := ParseTerm(instance.parameters[i], nsm, fromN3);
        if value.Variable? {
          params := params + [VariableParameter(value, ConstraintList([]))];
        } else {
          params := params + [ConcreteParameter(value, ConstraintList([]))];
        }
      }
      if |params| < 3 {
        return Err(IndexError(|params|));
      }
      return Ok(Some(OttrTriple(Parameter(params[0]), Parameter(params[1]), Parameter(params[2]))));
    }
    r := Ok(None);
  }

  /** The arity of `ottr:Triple` is not checked: arguments after the third are ignored. */
  lemma ExtraArgumentsIgnored(instance: InstanceToken, extra: seq<string>, nsm: NamespaceManager, fromN3: FromN3)
    requires |instance.parameters| >= 3
    ensures TemplateInstance(instance.(parameters := instance.parameters + extra), nsm, fromN3) ==
            TemplateInstance(instance, nsm, fromN3)
  {
    var longer := instance.parameters + extra;
    assert longer[0] == instance.parameters[0] && longer[1] == instance.parameters[1] && longer[2] == instance.parameters[2];
  }

  /** The body instances parsed in order; the first error raised is the result. */
  function TemplateInstances(instances: seq<InstanceToken>, nsm: NamespaceManager, fromN3: FromN3)
    : Result<seq<Option<Template>>, ParseError>
  {
    Traverse(instances, (instance: InstanceToken) => TemplateInstance(instance, nsm, fromN3))
  }


  /** The parameters of a definition, the i-th at position i. */
  function TemplateParameters(params: seq<ParamToken>, nsm: NamespaceManager, fromN3: FromN3): (r: seq<TemplateParameter>)
    ensures |r| == |params|
    ensures forall i :: 0 <= i < |params| ==> r[i] == ParseTemplateParameter(params[i], i, nsm, fromN3) && r[i].position == i
  {
    seq(|params|, i requires 0 <= i < |params| => ParseTemplateParameter(params[i], i, nsm, fromN3))
  }

  /** One definition as `parse_template_pottr` records it: name, parameters and instances. */
  datatype PottrTemplate = PottrTemplate(name: Term, parameters: seq<TemplateParameter>, instances: seq<Option<Template>>)

  /** What the loop body of `parse_template_pottr` makes of one definition. */
  function Definition(t: TemplateToken, nsm: NamespaceManager, fromN3: FromN3): (r: Result<PottrTemplate, ParseError>)
    ensures r.Ok? <==> TemplateInstances(t.instances, nsm, fromN3).Ok?
    ensures r.Ok? ==> r.value.name == ParseTerm(t.name, nsm, fromN3) &&
                      r.value.parameters == TemplateParameters(t.parameters, nsm, fromN3) &&
                      r.value.instances == TemplateInstances(t.instances, nsm, fromN3).value
  {
    match TemplateInstances(t.instances, nsm, fromN3)
    case Err(e) => Err(e)
    case Ok(instances) => Ok(PottrTemplate(ParseTerm(t.name, nsm, fromN3), TemplateParameters(t.parameters, nsm, fromN3), instances))
  }

  /** The definitions parsed in order; the first error raised is the result. */
  function Definitions(ts: seq<TemplateToken>, nsm: NamespaceManager, fromN3: FromN3): Result<seq<PottrTemplate>, ParseError>
  {
    Traverse(ts, (t: TemplateToken) => Definition(t, nsm, fromN3))
  }


  /** The prefixes `parse_template_pottr` binds before reading the document, in order. */
  const DEFAULT_NSM: NamespaceManager := NamespaceManager([
    BindCall("ottr", "http://ns.ottr.xyz/0.4/", false),
    BindCall("foaf", "http://xmlns.com/foaf/0.1/", false),
    BindCall("dc", "http://purl.org/dc/elements/1.1/", false),
    BindCall("owl", "http://www.w3.org/2002/07/owl#", false),
    BindCall("ax", "http://tpl.ottr.xyz/owl/axiom/0.1/", false),
    BindCall("rstr", "http://tpl.ottr.xyz/owl/restriction/0.1/", false),
    BindCall("schema", "http://schema.org/", false),
    BindCall("schemas", "https://schema.org/", false)])

  /** One definition, as the loop body of `parse_template_pottr` builds it. */
  method ParseDefinition(t: TemplateToken, nsm: NamespaceManager, fromN3: FromN3) returns (r: Result<PottrTemplate, ParseError>)
    ensures r == Definition(t, nsm, fromN3)
  {
    var name := ParseTerm(t.name, nsm, fromN3);
    var params: seq<TemplateParameter> := [];
    for pos := 0 to |t.parameters|
      invariant params == TemplateParameters(t.parameters[..pos], nsm, fromN3)
    {
      params := params + [ParseTemplateParameter(t.parameters[pos], pos, nsm, fromN3)];
    }
    assert t.parameters[..|t.parameters|] == t.parameters;
    var instances: seq<Option<Template>> := [];
    assert t.instances[0..] == t.instances;
    PrependNothing(TemplateInstances(t.instances, nsm, fromN3));
    for i := 0 to |t.instances|
      invariant Prepend(instances, TemplateInstances(t.instances[i..], nsm, fromN3)) == TemplateInstances(t.instances, nsm, fromN3)
    {
      var parsed := ParseTemplateInstance(t.instances[i], nsm, fromN3);
      TraverseStep(instances, t.instances, i, (instance: InstanceToken) => TemplateInstance(instance, nsm, fromN3));
      if parsed.Err? {
        return Err(parsed.error);
      }
      instances := instances + [parsed.value];
    }
    assert instances + [] == instances;
    r := Ok(PottrTemplate(name, params, instances));
  }

  /** `parse_template_pottr` after lexing: binds the prefixes, then one record per definition, in order. */
  method ParseTemplatePottr(tree: TemplatesTree, fromN3: FromN3) returns (r: Result<seq<PottrTemplate>, ParseError>)
    ensures r == Definitions(tree.templates, PrefixedNsm(DEFAULT_NSM, tree.prefixes), fromN3)
  {
    var nsm := BindPrefixes(DEFAULT_NSM, tree.prefixes);
    var templates: seq<PottrTemplate> := [];
    assert tree.templates[0..] == tree.templates;
    PrependNothing(Definitions(tree.templates, nsm, fromN3));
    for i := 0 to |tree.templates|
      invariant Prepend(templates, Definitions(tree.templates[i..], nsm, fromN3)) == Definitions(tree.templates, nsm, fromN3)
    {
      var parsed := ParseDefinition(tree.templates[i], nsm, fromN3);
      TraverseStep(templates, tree.templates, i, (t: TemplateToken) => Definition(t, nsm, fromN3));
      if parsed.Err? {
        return Err(parsed.error);
      }
      templates := templates + [parsed.value];
    }
    assert templates + [] == templates;
    r := Ok(templates);
  }
}
