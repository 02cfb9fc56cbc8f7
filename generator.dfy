/**
 * The generator (ottr/generator.py): a registry of templates by name, filled
 * by loading parsed template definitions, and the execution of a list of
 * templates into one stream of triples.
 */
module Generator {
  import opened Wrappers
  import opened Terms
  import opened Templates
  import opened ExpansionLaws

  /** The name `instanciate` looks up. */
  const PERSON: Term := Iri("http://example.org#Person")

  /** The fixed positional arguments `execute` hands to `format_parameters`. */
  const PERSON_ARGUMENTS: seq<(int, Term)> :=
    [(0, Literal("Ann", None, None)), (1, Literal("Strong", None, None)), (2, Iri("mailto:ann.strong@gmail.com"))]

  /** The names of a list of templates. */
  function Names(parsed: seq<Template>): set<Term>
  {
    set t | t in parsed :: t.name
  }

  /**
   * The registry after storing each of `parsed` under its name, in order:
   * a later template replaces an earlier one with the same name.
   */
  function Register(registry: Registry, parsed: seq<Template>): (r: Registry)
    ensures r.Keys == registry.Keys + Names(parsed)
    decreases |parsed|
  {
    if parsed == [] then registry
    else
      var init, last := parsed[..|parsed| - 1], parsed[|parsed| - 1];
      assert parsed == init + [last];
      assert Names(parsed) == Names(init) + {last.name};
      Register(registry, init)[last.name := last]
  }

  /** Every parsed template is registered under its name unless a later one has the same name. */
  lemma {:induction false} RegisterLastWins(registry: Registry, parsed: seq<Template>, i: nat)
    requires i < |parsed|
    requires forall j :: i < j < |parsed| ==> parsed[j].name != parsed[i].name
    ensures parsed[i].name in Register(registry, parsed)
    ensures Register(registry, parsed)[parsed[i].name] == parsed[i]
    decreases |parsed|
  {
    if i < |parsed| - 1 {
      RegisterLastWins(registry, parsed[..|parsed| - 1], i);
    }
  }

  /** Entries whose names are not among the parsed templates keep their template. */
  lemma {:induction false} RegisterKeepsOthers(registry: Registry, parsed: seq<Template>, k: Term)
    requires k in registry && k !in Names(parsed)
    ensures k in Register(registry, parsed) && Register(registry, parsed)[k] == registry[k]
    decreases |parsed|
  {
    if parsed != [] {
      var init, last := parsed[..|parsed| - 1], parsed[|parsed| - 1];
      assert last in parsed;
      assert Names(init) <= Names(parsed) by {
        forall n | n in Names(init) ensures n in Names(parsed) {
          var t :| t in init && t.name == n;
          assert t in parsed;
        }
      }
      RegisterKeepsOthers(registry, init, k);
    }
  }

  /** Why `instanciate` fails: the key it looks up is absent. */
  datatype GeneratorError = KeyError(key: Term)

  class OttrGenerator {
    /** Templates by name (`self._templates`). */
    var templates: Registry

    /** A new generator starts with an empty registry. */
    constructor()
      ensures templates == map[]
    {
      templates := map[];
    }

    /**
     * `loadTemplates`: stores each parsed template under its name, in the
     * order given. Parsing the text is the parser's job; this takes its result.
     */
    method LoadTemplates(parsed: seq<Template>)
      modifies this
      ensures templates == Register(old(templates), parsed)
      ensures templates.Keys == old(templates).Keys + Names(parsed)
    {
      var i := 0;
      while i < |parsed|
        invariant 0 <= i <= |parsed|
        invariant templates == Register(old(templates), parsed[..i])
      {
        assert parsed[..i + 1][..i] == parsed[..i];
        templates := templates[parsed[i].name := parsed[i]];
        i := i + 1;
      }
      assert parsed[..|parsed|] == parsed;
    }

    /** `instanciate`: wraps the template registered under `ex:Person`; a missing key raises. */
    method Instanciate() returns (r: Result<OttrInstances, GeneratorError>)
      ensures r.Ok? <==> PERSON in templates
      ensures r.Ok? ==> fresh(r.value) && r.value.instances == [templates[PERSON]]
      ensures r.Err? ==> r.error == KeyError(PERSON)
    {
      if PERSON in templates {
        var instances := new OttrInstances([templates[PERSON]]);
        r := Ok(instances);
      } else {
        r := Err(KeyError(PERSON));
      }
    }
  }

  /**
   * What `execute` runs for each template: its expansion under the bindings
   * `format_parameters` builds from the fixed arguments. `execute` supplies
   * no registry and no suffix; `ExpandIgnoresRegistryAndSuffix` shows the
   * choice made here does not matter.
   */
  function ExecutionParts(instances: seq<Template>, formatParameters: (Template, seq<(int, Term)>) -> Bindings,
                          asNt: bool): (r: seq<Expansion>)
    ensures |r| == |instances|
    ensures forall i :: 0 <= i < |instances| ==>
              r[i] == Expand(instances[i], formatParameters(instances[i], PERSON_ARGUMENTS), map[], (0, 0), asNt)
  {
    seq(|instances|, i requires 0 <= i < |instances| =>
          Expand(instances[i], formatParameters(instances[i], PERSON_ARGUMENTS), map[], (0, 0), asNt))
  }

  class OttrInstances {
    const instances: seq<Template>

    constructor(instances: seq<Template>)
      ensures this.instances == instances
    {
      this.instances := instances;
    }

    /**
     * `execute`: the expansions of the templates concatenated in list order;
     * an error in one ends the stream there. `format_parameters` is not part
     * of this model and is taken as a parameter.
     */
    method Execute(formatParameters: (Template, seq<(int, Term)>) -> Bindings, asNt: bool) returns (out: Expansion)
      ensures out == Concat(ExecutionParts(instances, formatParameters, asNt))
      ensures out.failure.None? ==> out.triples == Flatten(ExecutionParts(instances, formatParameters, asNt))
    {
      ghost var parts := ExecutionParts(instances, formatParameters, asNt);
      out := Nothing;
      var i := 0;
      while i < |instances| && out.failure.None?
        invariant 0 <= i <= |instances|
        invariant Then(out, Concat(parts[i..])) == Concat(parts)
        invariant out.failure.Some? ==> out == Concat(parts)
      {
        var params := formatParameters(instances[i], PERSON_ARGUMENTS);
        var e := Expand(instances[i], params, map[], (0, 0), asNt);
        assert e == parts[i];
        assert parts[i..][1..] == parts[i + 1..];
        ThenAssociative(out, e, Concat(parts[i + 1..]));
        out := Then(out, e);
        i := i + 1;
      }
      ConcatSucceeds(parts);
    }
  }
}
