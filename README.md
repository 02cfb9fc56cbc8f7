# pyOTTR template expansion, modelled in Dafny

pyOTTR reads OTTR template definitions and instance calls and expands them into RDF triples. It accepts two
text syntaxes: stOTTR and pOTTR. This project models its core:

- **Arguments and parameters** (`Arguments`, `Parameters`). An instance argument is a constant term or a
  variable. Evaluating it under a set of bindings gives its term, or, in N-Triples mode (`as_nt`), the
  term's text. An unbound variable gives the `ottr:none` sentinel.
- **Templates** (`Templates`). `ottr:Triple`, `o-rdf:Type` and `o-rdfs:Label` are base templates. A main
  template is a definition whose body is a list of instances. A cross template expands its inner
  instance once per element of a list-valued variable.
  - An expansion is the list of triples the Python generator yields, together with the exception that
    ends it, if one does.
  - `Then` chains two expansions in sequence, as `yield from` does.
- **Expansion laws** (`ExpansionLaws`):
  - a main template yields the concatenation of what its instances yield, and stops at the first failure;
  - a cross template yields one inner expansion per list element, in list order;
  - neither the template registry nor the blank-node suffix changes the result;
  - N-Triples mode changes only the form of each triple, not the terms it carries.
- **The generator** (`Generator`). `OttrGenerator` is a class whose `templates` map the loading loop
  updates. `OttrInstances.execute` expands every stored instance, in order.
- **The parsers after lexing** (`Syntax`, `StottrParser`, `PottrParser`):
  - terms, prefixes and the namespace manager;
  - the base-template table;
  - parameters and instances;
  - the loops over template definitions and top-level instances. The first exception raised ends the
    parse.
- **A scenario** (`Scenarios`): the `ex:Person` definition from `tests/stottr_test.py`, proved to yield
  its four triples.

rdflib is treated as an external library:

- Terms are a datatype with the four kinds `Iri`, `Literal`, `BNode` and `Variable`.
- `term.n3()` stays symbolic: `NText(t)` stands for the text of `t`.
- `rdflib.util.from_n3` is a function parameter `fromN3`.
- A `NamespaceManager` is the log of its `bind` calls.

Python exceptions become values: the `Result`, `Option` and `Expansion.failure` datatypes.

## Model

| member | source | states |
|---|---|---|
| Wrappers.Traverse | ottr/parsers/stottr/parser.py:109-111 | the loops over instances and definitions in both parsers: on success one result per element, each the result of parsing that element |
| Wrappers.TraverseStopsAtFirstError | ottr/parsers/stottr/parser.py:109-111 | such a loop fails iff some element fails, and then with the error of the first failing one (the exception that leaves the loop) |
| Arguments.Constant | ottr/base/argument.py:44-45 | a constant evaluates to itself, as text exactly when `as_nt` |
| Arguments.Lookup | ottr/base/argument.py:60-63 | an unbound variable gives `ottr:none`; a bound one gives its value, as text exactly when `as_nt`; the only failure is asking for the text of a list value |
| Arguments.URIArgument | ottr/base/argument.py:47-51 | a URI argument is a bound (concrete) argument holding that IRI at that position |
| Arguments.InstanceArgument.IsBound | ottr/base/argument.py:40-42 | a bound (concrete) argument evaluates the same under any bindings; an unbound one (`is_bound` is false, ottr/base/argument.py:23-26) evaluates to `ottr:none` without bindings |
| Arguments.EvaluateArgument | ottr/base/argument.py:60-63 | concrete arguments give their value; variables give the bound value or `ottr:none`; text form exactly when `as_nt`; fails only for the text of a list |
| Arguments.ConcreteIgnoresBindings | ottr/base/argument.py:40-45 | a bound argument evaluates the same under any bindings |
| Arguments.URIArgumentConstant | ottr/base/argument.py:47-51 | a URI argument always evaluates to its IRI |
| Arguments.ArgumentTextOnlyChangesForm | ottr/base/argument.py:60-63 | node-mode evaluation never fails, and text-mode evaluation, when it succeeds, carries the same value |
| Parameters.EvaluateParameter | ottr/base/parameter.py:40-44 | a bound variable gives its value (as text exactly when `as_nt`); an unbound variable gives `ottr:none`; a constant gives itself |
| Parameters.EvaluateParameterAsWritten | ottr/base/parameter.py:44 | as written, an unbound variable raises; every other case agrees with `EvaluateParameter` |
| Parameters.AbsentParameterRaisesAsWritten | ottr/base/parameter.py:40-44 | for any unbound variable, the as-written evaluation fails where the intended one gives `ottr:none` |
| Parameters.EvaluationIgnoresConstraints | ottr/base/parameter.py:40-43 | the constraints stored on a parameter never affect its evaluation |
| Parameters.ConcreteParameterIgnoresBindings | ottr/base/parameter.py:30-31 | a concrete parameter evaluates the same under any bindings |
| Parameters.ParameterTextOnlyChangesForm | ottr/base/parameter.py:40-43 | node-mode evaluation never fails, and text mode, when it succeeds, carries the same value |
| Templates.Evaluate | ottr/base/base_templates.py:24-30 | in node mode an operand always evaluates to a node; in text mode the only node produced is the `ottr:none` sentinel, and the only error is asking for the text of a list |
| Templates.Then | ottr/base/template.py:28-29 | `yield from a` then `yield from b`: when `a` fails the result is `a` itself; otherwise `a`'s triples followed by exactly `b`'s, with `b`'s failure |
| Templates.OttrTriple | ottr/base/base_templates.py:14-18 | builds an `ottr:Triple` instance with the given subject, predicate and object; it is a base template |
| Templates.OttrType | ottr/base/base_templates.py:35-37 | builds an `o-rdf:Type` base template whose predicate evaluates to `rdf:type` under any bindings |
| Templates.OttrLabel | ottr/base/base_templates.py:42-44 | builds an `o-rdfs:Label` base template whose predicate evaluates to `rdfs:label` under any bindings |
| Templates.IsBase | ottr/base/base_templates.py:20-22 | a base template expands on its own, under any bindings, into exactly one triple, or into none and an error |
| Templates.EmitTriple | ottr/base/base_templates.py:24-30 | yields at most one triple; succeeds iff all three operands evaluate, and then yields exactly their values; on failure yields nothing |
| Templates.Rebind | ottr/base/expansion.py:19-24 | the local arguments have the same keys, the cross variable mapped to the current element, every other key unchanged |
| Templates.CopyWithRebinding | ottr/base/expansion.py:19-24 | the copying loop builds exactly `Rebind(arguments, x, value)` |
| Templates.Expand | ottr/base/expansion.py:13-26 | the corrected expansion of any template: it fails only when a cross variable is bound to a single term, or, in text mode, when a list has no text form |
| Templates.ExpandAll | ottr/base/template.py:26-29 | a main template's body expands with the same failure guarantee |
| Templates.CrossAll | ottr/base/expansion.py:17-26 | the cross loop expands with the same failure guarantee |
| Templates.ExpandAsWritten | ottr/base/template.py:29 | with the `expand` signatures as written, no template yields any triple, whatever the call shape |
| Templates.ExpandAllAsWritten | ottr/base/template.py:26-29 | as written, a main template's body yields no triple |
| Templates.CrossAllAsWritten | ottr/base/expansion.py:26 | as written, the cross loop yields no triple |
| ExpansionLaws.ThenAssociative | ottr/base/template.py:28-29 | chaining expansions is associative |
| ExpansionLaws.ConcatSucceeds | ottr/base/template.py:28-29 | a sequence of expansions succeeds iff every part succeeds, and then yields the flattened triples |
| ExpansionLaws.ConcatStopsAtFirstFailure | ottr/base/template.py:28-29 | when part j is the first to fail, the result is everything before it, then j's prefix, and j's error |
| ExpansionLaws.ExpandAllIsConcat | ottr/base/template.py:28-29 | expanding a body is the concatenation of its instances' expansions, in order |
| ExpansionLaws.MainIsConcatenation | ottr/base/template.py:26-29 | a main template yields its instances' triples in body order, and succeeds iff every instance does |
| ExpansionLaws.MainEmptyYieldsNothing | ottr/base/template.py:26-29 | a main template with an empty body yields nothing and succeeds |
| ExpansionLaws.MainOfTriplesYieldsOneEach | ottr/base/template.py:26-29 | a successful main template whose body holds only base triples yields exactly one triple per instance |
| ExpansionLaws.CrossAllIsConcat | ottr/base/expansion.py:17-26 | the cross loop is the concatenation of one inner expansion per list element |
| ExpansionLaws.CrossAbsentYieldsNothing | ottr/base/expansion.py:15 | a cross template whose variable is unbound yields nothing and succeeds |
| ExpansionLaws.CrossIsConcatenation | ottr/base/expansion.py:15-26 | a cross over a list yields the inner expansions under each rebinding, in list order; an empty list yields nothing |
| ExpansionLaws.CrossCardinality | ottr/base/expansion.py:17-26 | if each inner expansion yields k triples and the whole succeeds, it yields (list length × k) triples |
| ExpansionLaws.CrossOverTripleYieldsOnePerElement | ottr/base/expansion.py:17-26 | a successful cross over a base triple yields one triple per list element |
| ExpansionLaws.CrossAllTripleObjects | ottr/base/expansion.py:17-26 | the cross loop over `ottr:Triple(s, p, ?x)` yields `(s, p, v)` for each element v, in order |
| ExpansionLaws.CrossOverListedObject | ottr/base/expansion.py:13-26 | a cross over `ottr:Triple(s, p, ?x)` succeeds with one triple per element, same subject and predicate, the i-th object the i-th element |
| ExpansionLaws.ExpandIgnoresRegistryAndSuffix | ottr/base/expansion.py:13 | what a template yields depends neither on `all_templates` nor on `bnode_suffix` |
| ExpansionLaws.ExpandAllIgnoresRegistryAndSuffix | ottr/base/template.py:26-29 | the same for a main template's body |
| ExpansionLaws.CrossAllIgnoresRegistryAndSuffix | ottr/base/expansion.py:17-26 | the same for the cross loop |
| ExpansionLaws.ExpandTextOnlyChangesForm | ottr/base/base_templates.py:24-30 | if text-mode expansion succeeds, node-mode expansion succeeds and yields the same triples up to form |
| ExpansionLaws.ExpandAllTextOnlyChangesForm | ottr/base/template.py:26-29 | the same for a main template's body |
| ExpansionLaws.CrossAllTextOnlyChangesForm | ottr/base/expansion.py:17-26 | the same for the cross loop |
| ExpansionLaws.ParameterOrArgumentTextOnlyChangesForm | ottr/base/parameter.py:40-43 | a successful text-mode evaluation of any operand carries the node-mode value |
| ExpansionLaws.MainOverTripleAsWritten | ottr/base/template.py:29 | a main template over one `ottr:Triple` raises as written, but yields that one triple under the intended expansion |
| Generator.Register | ottr/generator.py:13-16 | storing the templates in order leaves the registry's keys equal to the old keys plus the templates' names |
| Generator.RegisterLastWins | ottr/generator.py:13-16 | a loaded template that no later one of the same name overrides is the one registered under its name |
| Generator.RegisterKeepsOthers | ottr/generator.py:13-16 | a name no loaded template carries keeps its old template |
| Generator.OttrGenerator.constructor | ottr/generator.py:9-11 | a new generator has no templates |
| Generator.OttrGenerator.LoadTemplates | ottr/generator.py:13-16 | the loop registers the templates in order (`Register`), so the key set grows by exactly their names |
| Generator.OttrGenerator.Instanciate | ottr/generator.py:18-20 | succeeds iff `ex:Person` is registered, returning a fresh instance list holding exactly that template; otherwise a `KeyError` for that name |
| Generator.ExecutionParts | ottr/generator.py:29-32 | one expansion per stored instance, each under the bindings `format_parameters` builds from the fixed Ann/Strong/mailbox arguments |
| Generator.OttrInstances.constructor | ottr/generator.py:25-27 | stores the instance list |
| Generator.OttrInstances.Execute | ottr/generator.py:29-32 | the loop yields the concatenation of the instances' expansions, stopping at the first failure; when nothing fails, all their triples in order |
| Syntax.Bind | ottr/parsers/stottr/parser.py:93 | a bind appends exactly one call to the namespace manager's log and keeps the earlier ones |
| Syntax.ParseTerm | ottr/parsers/stottr/parser.py:38-43 | text starting with `?` is the variable named by the rest; anything else is what `from_n3` makes of it |
| Syntax.VariableTextRoundTrip | ottr/parsers/stottr/parser.py:38-43 | `?` followed by a name parses back to the variable of that name |
| Syntax.Unwrap | ottr/parsers/stottr/parser.py:90-92 | a `<…>`-wrapped IRI loses exactly its brackets; anything else is unchanged |
| Syntax.UnwrapWrapped | ottr/parsers/stottr/parser.py:90-92 | unwrapping `<iri>` gives back `iri` |
| Syntax.PrefixBinds | ottr/parsers/stottr/parser.py:89-93 | one replacing bind per prefix, in order, with the unwrapped IRI |
| Syntax.BindPrefixes | ottr/parsers/stottr/parser.py:89-93 | the prefix loop appends exactly `PrefixBinds(prefixes)` to the manager's log |
| StottrParser.BASE_TEMPLATES | ottr/parsers/stottr/parser.py:15-19 | the table maps `ottr:Triple` to 3 arguments and `o-rdf:Type`, `o-rdfs:Label` to 2, each with its constructor |
| StottrParser.BaseTemplatesTable | ottr/parsers/stottr/parser.py:15-19 | the base templates are exactly Triple (3 arguments), Type (2) and Label (2), each arity matching its constructor |
| StottrParser.Construct | ottr/parsers/stottr/parser.py:70-75 | each table constructor builds its own base template: `OttrTriple`, `OttrType` or `OttrLabel` over the arguments in order (so Type and Label carry the fixed `rdf:type`/`rdfs:label` predicate) |
| StottrParser.Classify | ottr/parsers/stottr/parser.py:50-53 | a variable term becomes a variable parameter, anything else a concrete one, with the index in the constraints slot |
| StottrParser.InstanceParameters | ottr/parsers/stottr/parser.py:45-54 | one parameter per argument text, the i-th classified with index i |
| StottrParser.ParseInstanceParameters | ottr/parsers/stottr/parser.py:45-54 | the loop builds exactly `InstanceParameters` |
| StottrParser.ParseTemplateParameter | ottr/parsers/stottr/parser.py:56-63 | name parsed as a term; type defaults to `rdfs:Resource`; optional and non-blank iff their tokens are present |
| StottrParser.TemplateInstance | ottr/parsers/stottr/parser.py:65-78 | a base-template call fails iff its argument count differs from the table's, with that count in the error; otherwise it is built by the table's constructor; any other name gives a non-base instance with all its arguments |
| StottrParser.ParseTemplateInstance | ottr/parsers/stottr/parser.py:65-78 | the method agrees with `TemplateInstance` |
| StottrParser.TemplateParameters | ottr/parsers/stottr/parser.py:102-106 | each parameter's name paired with its position |
| StottrParser.Definition | ottr/parsers/stottr/parser.py:97-118 | a definition succeeds iff its body does, with the parsed name, parameters and instances |
| StottrParser.ParseDefinition | ottr/parsers/stottr/parser.py:97-118 | the loop body agrees with `Definition` |
| StottrParser.ParseTemplatesStottr | ottr/parsers/stottr/parser.py:80-119 | the whole parse is `Definitions` under the default manager extended with the document's prefixes |
| StottrParser.Instance | ottr/parsers/stottr/parser.py:139-148 | a top-level instance keeps its parsed name and pairs each argument with its position |
| StottrParser.ParseInstancesStottr | ottr/parsers/stottr/parser.py:122-149 | one record per instance, in order, each parsed under the default manager plus the document's prefixes |
| PottrParser.ParseTemplateParameter | ottr/parsers/pottr/parser.py:19-27 | name parsed as a term; position recorded; type defaults to `rdfs:Resource`; optional and non-blank iff their tokens are present |
| PottrParser.ToParameter | ottr/parsers/pottr/parser.py:39-42 | a variable term becomes a variable parameter, anything else a concrete one, with no constraints |
| PottrParser.TripleArguments | ottr/parsers/pottr/parser.py:36-42 | one parameter per argument text, in order |
| PottrParser.TemplateInstance | ottr/parsers/pottr/parser.py:29-52 | a non-Triple call gives no template; a Triple call fails iff it has fewer than three arguments, and otherwise is the triple of its first three |
| PottrParser.ParseTemplateInstance | ottr/parsers/pottr/parser.py:29-52 | the method agrees with `TemplateInstance` |
| PottrParser.ExtraArgumentsIgnored | ottr/parsers/pottr/parser.py:35-43 | arguments after the third do not change the parsed Triple |
| PottrParser.TemplateParameters | ottr/parsers/pottr/parser.py:86-89 | the i-th parameter is parsed with position i |
| PottrParser.Definition | ottr/parsers/pottr/parser.py:80-98 | a definition succeeds iff its body does, with the parsed name, parameters and instances |
| PottrParser.ParseDefinition | ottr/parsers/pottr/parser.py:80-98 | the loop body agrees with `Definition` |
| PottrParser.ParseTemplatePottr | ottr/parsers/pottr/parser.py:54-99 | the whole parse is `Definitions` under the eight default prefixes extended with the document's prefixes |
| Scenarios.PersonExpansion | tests/stottr_test.py:8-33 | the `ex:Person` definition, with its variables bound to Ann, Strong and the mailbox, yields exactly the four expected triples in body order |

## Left out

- Lexing: the pyparsing grammars of both syntaxes are not modelled. The parsers start from the lexer's
  records (`TemplatesTree`, `InstancesTree`, `InstanceToken` and the others).
- rdflib: IRI resolution, `from_n3` and `n3()` are left symbolic. rdflib's `Variable` dropping a leading `?`
  is not modelled, and neither is how a namespace manager resolves prefixes.
- Blank-node renaming with the `(execution, instance)` suffix, and `all_templates` lookups: no modelled code
  reads either parameter (see `ExpansionLaws.ExpandIgnoresRegistryAndSuffix`).
- `NonBaseInstance`, `MainTemplate.add_parameter` and `format_parameters` are not defined in the modelled
  files. A non-base instance is kept as a record. `add_parameter` calls are kept as `(name, position)`
  pairs. `format_parameters` is a function parameter of `Execute`.
- `InstanceParameter.update_constraints` (ottr/base/parameter.py:14-16) is left out: nothing calls it, and
  as written it refers to an undefined name.
- Templates.Expand: a cross variable bound to a single term rather than a list is reported as a
  `CrossOverTerm` failure. Python would iterate over the term's characters instead.
- Templates.IsBase: only `OttrTriple` defines `is_base`. For main and cross templates the model answers
  false, where Python raises `AttributeError`.
- Generator.OttrGenerator.LoadTemplates: takes already-parsed templates. The text parsing step and its
  format switch are not modelled.
- Generator.OttrGenerator.Instanciate: the instance text argument is ignored, as in the source, which
  always looks up `ex:Person`.
- Generator.OttrInstances.Execute: expands with the intended signatures; see the second finding.
  Expansion as written is `Templates.ExpandAsWritten`.
- The `OTTR` namespace constants `OTTR_TYPE_URI` and `OTTR_LABEL_URI` are imported from
  ottr/base/utils.py, but that file does not define them. The model uses the `o-rdf:Type` and
  `o-rdfs:Label` IRIs of the OTTR base library.
- `from_n3` is a total function here, so a term never fails to parse. rdflib raises `KeyError` for a
  prefixed name whose prefix is not bound, and that exception would end `parse_templates_stottr`,
  `parse_instances_stottr` and `parse_template_pottr` at the first such term. The modelled parsers fail
  only through the arity check (stOTTR) or a short `ottr:Triple` (pOTTR).
- Known source inconsistencies that the model does not reproduce:
  - The stOTTR lexer names instance arguments `arguments`, but the parser reads `parameters`.
  - The pOTTR parser imports `lex_template_pottr`, but the lexer defines `lex_templates_pottr`.
  - `loadTemplates` reads `.name` on the dictionaries the pOTTR parser returns.
  - `AbstractTemplate` stores its name in `_name` and defines no `name` property
    (ottr/base/template.py:9-11), so `template.name` in `loadTemplates` fails on a `MainTemplate` as well.
    The model's `Template.name`, which `Generator.Register` and `Generator.Names` read, stands for `_name`.
- The stOTTR parser passes each argument's index as the parameter's `constraints`. The model keeps this as
  `IndexAsConstraints(index)`; evaluation never reads it (`Parameters.EvaluationIgnoresConstraints`).

## Findings

| source | as written | input that shows it | evidently intended | confidence | as-written member | corrected member |
|---|---|---|---|---|---|---|
| ottr/base/parameter.py:44 | an unbound variable parameter returns `OTTR('none')`; `OTTR` is an rdflib namespace, a string and not callable, so the call raises `TypeError` | `VariableParameter(?x).evaluate({})` | return the `ottr:none` IRI, as `VariableArgument.evaluate` does with `OTTR.none` (ottr/base/argument.py:63) | medium, not executed | Parameters.EvaluateParameterAsWritten | Parameters.EvaluateParameter |
| ottr/base/template.py:29 | `MainTemplate.expand` calls each instance's `expand(parameters, as_nt=)`, but `OttrTriple.expand` also requires `all_templates` (ottr/base/base_templates.py:24), so the call raises before any triple; `CrossTemplate` calls its inner instance with `bnode_suffix=`, which neither `OttrTriple` nor `MainTemplate` accepts (ottr/base/expansion.py:26) | a main template whose body is one `ottr:Triple` (the `ex:Person` example) | one signature for every template, so that a main template yields its instances' triples in order | high, not executed | ExpansionLaws.MainOverTripleAsWritten | Templates.Expand |
