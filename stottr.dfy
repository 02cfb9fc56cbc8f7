/**
 * The stOTTR parser after lexing (ottr/parsers/stottr/parser.py): turns the
 * lexer's records into template definitions and instances.
 */
module StottrParser {
  import opened Wrappers
  import opened Terms
  import opened Parameters
  import opened Templates
  import opened Syntax

  /** The constructors the base-template table can apply. */
  datatype BaseConstructor = TripleConstructor | TypeConstructor | LabelConstructor

  /** `BASE_TEMPLATES`: base template name -> (constructor, expected number of arguments). */
  const BASE_TEMPLATES: map<Term, (BaseConstructor, nat)> :=
    map[OTTR_TRIPLE_URI := (TripleConstructor, 3), OTTR_TYPE_URI := (TypeConstructor, 2),
        OTTR_LABEL_URI := (LabelConstructor, 2)]

  /** The number of arguments a base constructor takes. */
  function Arity(c: BaseConstructor): nat
  {
    if c == TripleConstructor then 3 else 2
  }

  /** The table's arities are those of its constructors, and each entry builds a template of its own name. */
  lemma BaseTemplatesTable()
    ensures BASE_TEMPLATES.Keys == {OTTR_TRIPLE_URI, OTTR_TYPE_URI, OTTR_LABEL_URI}
    ensures BASE_TEMPLATES[OTTR_TRIPLE_URI] == (TripleConstructor, 3)
    ensures BASE_TEMPLATES[OTTR_TYPE_URI] == (TypeConstructor, 2)
    ensures BASE_TEMPLATES[OTTR_LABEL_URI] == (LabelConstructor, 2)
    ensures forall n :: n in BASE_TEMPLATES ==> BASE_TEMPLATES[n].1 == Arity(BASE_TEMPLATES[n].0)
  {
  }

  /** `TemplateConstructor(*params)`: the base template built over the arguments. */
  function Construct(c: BaseConstructor, params: seq<InstanceParameter>): (t: Template)
    requires |params| == Arity(c)
    ensures t.Triple? && t.subj == Parameter(params[0]) && t.obj == Parameter(params[|params| - 1])
    ensures t.name == (match c case TripleConstructor => OTTR_TRIPLE_URI
                               case TypeConstructor => OTTR_TYPE_URI
                               case LabelConstructor => OTTR_LABEL_URI)
    ensures c == TripleConstructor ==> t == OttrTriple(Parameter(params[0]), Parameter(params[1]), Parameter(params[2]))
    ensures c == TypeConstructor ==> t == OttrType(Parameter(params[0]), Parameter(params[1]))
    ensures c == LabelConstructor ==> t == OttrLabel(Parameter(params[0]), Parameter(params[1]))
    ensures IsBase(t)
  {
    match c
    case TripleConstructor => OttrTriple(Parameter(params[0]), Parameter(params[1]), Parameter(params[2]))
    case TypeConstructor => OttrType(Parameter(params[0]), Parameter(params[1]))
    case LabelConstructor => OttrLabel(Parameter(params[0]), Parameter(params[1]))
  }

  /** A parsed argument as a `VariableParameter` when it is a variable, a `ConcreteParameter` otherwise; the index goes in the constraints slot. */
  function Classify(value: Term, index: nat): (p: InstanceParameter)
    ensures p.value == value && p.constraints == IndexAsConstraints(index)
    ensures p.VariableParameter? <==> value.Variable?
  {
    if value.Variable? then VariableParameter(value, IndexAsConstraints(index))
    else ConcreteParameter(value, IndexAsConstraints(index))
  }

  /** What `parse_instance_parameters` returns: one parameter per text, the i-th for the i-th text. */
  function InstanceParameters(texts: seq<string>, nsm: NamespaceManager, fromN3: FromN3): (r: seq<InstanceParameter>)
    ensures |r| == |texts|
    ensures forall i :: 0 <= i < |texts| ==> r[i] == Classify(ParseTerm(texts[i], nsm, fromN3), i)
  {
    seq(|texts|, i requires 0 <= i < |texts| => Classify(ParseTerm(texts[i], nsm, fromN3), i))
  }

  /** `parse_instance_parameters`: builds the list by appending in index order. */
  method ParseInstanceParameters(texts: seq<string>, nsm: NamespaceManager, fromN3: FromN3)
    returns (params: seq<InstanceParameter>)
    ensures params == InstanceParameters(texts, nsm, fromN3)
  {
    params := [];
    for ind := 0 to |texts|
      invariant |params| == ind
      invariant forall j :: 0 <= j < ind ==> params[j] == Classify(ParseTerm(texts[j], nsm, fromN3), j)
    {
      var value := ParseTerm(texts[ind], nsm, fromN3);
      if value.Variable? {
        params := params + [VariableParameter(value, IndexAsConstraints(ind))];
      } else {
        params := params + [ConcreteParameter(value, IndexAsConstraints(ind))];
      }
    }
  }

  /** A parameter of a template definition, as `parse_template_parameter` describes it. */
  datatype TemplateParameter = TemplateParameter(name: Term, typeIri: string, optional: bool, nonblank: bool)

  /**
   * `parse_template_parameter`: the type is `rdfs:Resource` unless a type
   * token is present; each flag is set exactly when its token is present.
   */
  function ParseTemplateParameter(param: ParamToken, nsm: NamespaceManager, fromN3: FromN3): (r: TemplateParameter)
    ensures r.name == ParseTerm(param.value, nsm, fromN3)
    ensures param.typeToken == [] ==> r.typeIri == RDFS_RESOURCE
    ensures param.typeToken != [] ==> r.typeIri == param.typeToken
    ensures r.optional <==> param.optionalToken != []
    ensures r.nonblank <==> param.nonblankToken != []
  {
    TemplateParameter(ParseTerm(param.value, nsm, fromN3),
                      if |param.typeToken| > 0 then param.typeToken else RDFS_RESOURCE,
                      |param.optionalToken| > 0,
                      |param.nonblankToken| > 0)
  }

  /** A body instance: a base template, or a `NonBaseInstance` carrying the name and all arguments. */
  datatype ParsedInstance =
    | BaseInstance(template: Template)
    | NonBaseInstance(name: Term, arguments: seq<InstanceParameter>)

  datatype ParseError =
    | ArityMismatch(template: Term, expected: nat, given: nat)  // a base template called with the wrong number of arguments

  /** What `parse_template_instance` returns or raises. */
  function TemplateInstance(instance: InstanceToken, nsm: NamespaceManager, fromN3: FromN3): (r: Result<ParsedInstance, ParseError>)
    ensures var name := ParseTerm(instance.name, nsm, fromN3);
            && (r.Err? <==> name in BASE_TEMPLATES && |instance.parameters| != BASE_TEMPLATES[name].1)
            && (r.Err? ==> r.error == ArityMismatch(name, BASE_TEMPLATES[name].1, |instance.parameters|))
            && (r.Ok? && name in BASE_TEMPLATES ==>
                  r.value.BaseInstance? && r.value.template.Triple? && r.value.template.name == name &&
                  r.value.template == Construct(BASE_TEMPLATES[name].0, InstanceParameters(instance.parameters, nsm, fromN3)))
            && (name !in BASE_TEMPLATES ==>
                  r == Ok(NonBaseInstance(name, InstanceParameters(instance.parameters, nsm, fromN3))))
  {
    var name := ParseTerm(instance.name, nsm, fromN3);
    if name in BASE_TEMPLATES then
      var (ctor, expected) := BASE_TEMPLATES[name];
      if |instance.parameters| != expected then Err(ArityMismatch(name, expected, |instance.parameters|))
      else Ok(BaseInstance(Construct(ctor, InstanceParameters(instance.parameters, nsm, fromN3))))
    else Ok(NonBaseInstance(name, InstanceParameters(instance.parameters, nsm, fromN3)))
  }

  /** `parse_template_instance`: the arity check comes before any argument is built. */
  method ParseTemplateInstance(instance: InstanceToken, nsm: NamespaceManager, fromN3: FromN3)
    returns (r: Result<ParsedInstance, ParseError>)
    ensures r == TemplateInstance(instance, nsm, fromN3)
  {
    var name := ParseTerm(instance.name, nsm, fromN3);
    if name in BASE_TEMPLATES {
      var (ctor, expected) := BASE_TEMPLATES[name];
      if |instance.parameters| != expected {
        return Err(ArityMismatch(name, expected, |instance.parameters|));
      }
      var params := ParseInstanceParameters(instance.parameters, nsm, fromN3);
      return Ok(BaseInstance(Construct(ctor, params)));
    }
    var params := ParseInstanceParameters(instance.parameters, nsm, fromN3);
    r := Ok(NonBaseInstance(name, params));
  }

  /** The body instances parsed in order; the first error raised is the result. */
  function TemplateInstances(instances: seq<InstanceToken>, nsm: NamespaceManager, fromN3: FromN3)
    : Result<seq<ParsedInstance>, ParseError>
  {
    Traverse(instances, (instance: InstanceToken) => TemplateInstance(instance, nsm, fromN3))
  }


  /** A template definition: the arguments of its `MainTemplate(name, instances)` and `add_parameter(name, position)` calls. */
  datatype ParsedTemplate = ParsedTemplate(name: Term, parameters: seq<(Term, nat)>, instances: seq<ParsedInstance>)

  /** The parameters of a definition, each paired with its position. */
  function TemplateParameters(params: seq<ParamToken>, nsm: NamespaceManager, fromN3: FromN3): (r: seq<(Term, nat)>)
    ensures |r| == |params|
    ensures forall i :: 0 <= i < |params| ==> r[i] == (ParseTemplateParameter(params[i], nsm, fromN3).name, i)
  {
    seq(|params|, i requires 0 <= i < |params| => (ParseTemplateParameter(params[i], nsm, fromN3).name, i))
  }

  /** What the loop body of `parse_templates_stottr` makes of one definition. */
  function Definition(t: TemplateToken, nsm: NamespaceManager, fromN3: FromN3): (r: Result<ParsedTemplate, ParseError>)
    ensures r.Ok? <==> TemplateInstances(t.instances, nsm, fromN3).Ok?
    ensures r.Ok? ==> r.value.name == ParseTerm(t.name, nsm, fromN3) &&
                      r.value.parameters == TemplateParameters(t.parameters, nsm, fromN3) &&
                      r.value.instances == TemplateInstances(t.instances, nsm, fromN3).value
  {
    match TemplateInstances(t.instances, nsm, fromN3)
    case Err(e) => Err(e)
    case Ok(instances) => Ok(ParsedTemplate(ParseTerm(t.name, nsm, fromN3), TemplateParameters(t.parameters, nsm, fromN3), instances))
  }

  /** The definitions parsed in order; the first error raised is the result. */
  function Definitions(ts: seq<TemplateToken>, nsm: NamespaceManager, fromN3: FromN3): Result<seq<ParsedTemplate>, ParseError>
  {
    Traverse(ts, (t: TemplateToken) => Definition(t, nsm, fromN3))
  }


  /** The default namespace manager: the prefixes `get_default_nsm` binds, in order. */
  const DEFAULT_NSM: NamespaceManager := NamespaceManager([
    BindCall("ottr", "http://ns.ottr.xyz/0.4/", false),
    BindCall("foaf", "http://xmlns.com/foaf/0.1/", false),
    BindCall("dc", "http://purl.org/dc/elements/1.1/", false),
    BindCall("owl", "http://www.w3.org/2002/07/owl#", false),
    BindCall("ax", "http://tpl.ottr.xyz/owl/axiom/0.1/", false),
    BindCall("rstr", "http://tpl.ottr.xyz/owl/restriction/0.1/", false),
    BindCall("schema", "http://schema.org/", false),
    BindCall("schemas", "https://schema.org/", false),
    BindCall("o-rdf", "http://tpl.ottr.xyz/rdf/0.1/", false),
    BindCall("o-rdfs", "http://tpl.ottr.xyz/rdfs/0.1/", false)])

  /** One definition, as the loop body of `parse_templates_stottr` builds it: parameters, then instances. */
  method ParseDefinition(t: TemplateToken, nsm: NamespaceManager, fromN3: FromN3) returns (r: Result<ParsedTemplate, ParseError>)
    ensures r == Definition(t, nsm, fromN3)
  {
    var name := ParseTerm(t.name, nsm, fromN3);
    var params: seq<(Term, nat)> := [];
    for pos := 0 to |t.parameters|
      invariant params == TemplateParameters(t.parameters[..pos], nsm, fromN3)
    {
      var parameter := ParseTemplateParameter(t.parameters[pos], nsm, fromN3);
      params := params + [(parameter.name, pos)];
    }
    assert t.parameters[..|t.parameters|] == t.parameters;
    var instances: seq<ParsedInstance> := [];
    assert t.instances[0..] == t.instances;
    PrependNothing(TemplateInstances(t.instances, nsm, fromN3));
    for i := 0 to |t.instances|
      invariant Prepend(instances, TemplateInstances(t.instances[i..], nsm, fromN3)) == TemplateInstances(t.instances, nsm, fromN3)
    {
      var parsed := ParseTemplateInstance(t.instances[i], nsm, fromN3);
      TraverseStep(instances, t.instances, i, (instance: InstanceToken) => TemplateInstance(instance, nsm, fromN3));
      if parsed.Err? {
        return Err(parsed.error);
      }
      instances := instances + [parsed.value];
    }
    assert instances + [] == instances;
    r := Ok(ParsedTemplate(name, params, instances));
  }

  /** `parse_templates_stottr` after lexing: binds the prefixes, then parses each definition in order. */
  method ParseTemplatesStottr(tree: TemplatesTree, fromN3: FromN3) returns (r: Result<seq<ParsedTemplate>, ParseError>)
    ensures r == Definitions(tree.templates, PrefixedNsm(DEFAULT_NSM, tree.prefixes), fromN3)
  {
    var nsm := BindPrefixes(DEFAULT_NSM, tree.prefixes);
    var templates: seq<ParsedTemplate> := [];
    assert tree.templates[0..] == tree.templates;
    PrependNothing(Definitions(tree.templates, nsm, fromN3));
    for i := 0 to |tree.templates|
      invariant Prepend(templates, Definitions(tree.templates[i..], nsm, fromN3)) == Definitions(tree.templates, nsm, fromN3)
    {
      var parsed := ParseDefinition(tree.templates[i], nsm, fromN3);
      TraverseStep(templates, tree.templates, i, (t: TemplateToken) => Definition(t, nsm, fromN3));
      if parsed.Err? {
        return Err(parsed.error);
      }
      templates := templates + [parsed.value];
    }
    assert templates + [] == templates;
    r := Ok(templates);
  }

  /** A top-level instance: its name and its arguments paired with their 0-based positions. */
  datatype TopInstance = TopInstance(name: Term, parameters: seq<(int, Term)>)

  /** What `parse_instances_stottr` makes of one lexed instance. */
  function Instance(instance: InstanceToken, nsm: NamespaceManager, fromN3: FromN3): (r: TopInstance)
    ensures r.name == ParseTerm(instance.name, nsm, fromN3)
    ensures |r.parameters| == |instance.parameters|
    ensures forall j :: 0 <= j < |instance.parameters| ==> r.parameters[j] == (j, ParseTerm(instance.parameters[j], nsm, fromN3))
  {
    TopInstance(ParseTerm(instance.name, nsm, fromN3),
                seq(|instance.parameters|, j requires 0 <= j < |instance.parameters| => (j, ParseTerm(instance.parameters[j], nsm, fromN3))))
  }

  /** `parse_instances_stottr` after lexing: binds the prefixes, then one record per instance, in order. */
  method ParseInstancesStottr(tree: InstancesTree, fromN3: FromN3) returns (r: seq<TopInstance>)
    ensures |r| == |tree.instances|
    ensures forall i :: 0 <= i < |tree.instances| ==> r[i] == Instance(tree.instances[i], PrefixedNsm(DEFAULT_NSM, tree.prefixes), fromN3)
  {
    var nsm := BindPrefixes(DEFAULT_NSM, tree.prefixes);
    r := [];
    for i := 0 to |tree.instances|
      invariant |r| == i
      invariant forall k :: 0 <= k < i ==> r[k] == Instance(tree.instances[k], nsm, fromN3)
    {
      var instance := tree.instances[i];
      var params: seq<(int, Term)> := [];
      for pos := 0 to |instance.parameters|
        invariant |params| == pos
        invariant forall j :: 0 <= j < pos ==> params[j] == (j, ParseTerm(instance.parameters[j], nsm, fromN3))
      {
        params := params + [(pos, ParseTerm(instance.parameters[pos], nsm, fromN3))];
      }
      r := r + [TopInstance(ParseTerm(instance.name, nsm, fromN3), params)];
    }
  }
}
