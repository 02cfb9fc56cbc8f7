/**
 * What the two parsers share once the lexer has run: the lexer's output as
 * plain records, the namespace manager, term parsing and prefix binding
 * (ottr/parsers/stottr/parser.py and ottr/parsers/pottr/parser.py).
 *
 * The lexers themselves, `from_n3` and the namespace manager's prefix
 * expansion are not part of this model: the lexer's output is an input, and
 * `from_n3` is a function parameter `FromN3` about which nothing is assumed.
 */
module Syntax {
  import opened Terms

  /** One template parameter as lexed: variable text and the type, `?` and `!` tokens ("" when absent). */
  datatype ParamToken = ParamToken(value: string, typeToken: string, optionalToken: string, nonblankToken: string)

  /** A template instance as lexed: name text and argument texts, in order. */
  datatype InstanceToken = InstanceToken(name: string, parameters: seq<string>)

  /** A template definition as lexed. */
  datatype TemplateToken = TemplateToken(name: string, parameters: seq<ParamToken>, instances: seq<InstanceToken>)

  /** A prefix declaration as lexed: the prefix and its IRI text, possibly wrapped in `<…>`. */
  datatype PrefixToken = PrefixToken(name: string, value: string)

  /** The lexer's output for a document of template definitions. */
  datatype TemplatesTree = TemplatesTree(prefixes: seq<PrefixToken>, templates: seq<TemplateToken>)

  /** The lexer's output for a document of instances. */
  datatype InstancesTree = InstancesTree(prefixes: seq<PrefixToken>, instances: seq<InstanceToken>)

  /** One `bind(prefix, namespace, replace)` call made on a namespace manager. */
  datatype BindCall = BindCall(prefix: string, namespace: string, replace: bool)

  /**
   * A namespace manager, known by the `bind` calls made on it since it was
   * created, in order. What prefix expansion makes of them is `from_n3`'s
   * business and is not modelled.
   */
  datatype NamespaceManager = NamespaceManager(binds: seq<BindCall>)

  /** `from_n3(text, nsm=...)`, left uninterpreted. */
  type FromN3 = (string, NamespaceManager) -> Term

  /** `nsm.bind(prefix, namespace, replace=...)`. */
  function Bind(nsm: NamespaceManager, prefix: string, namespace: string, replace: bool): (r: NamespaceManager)
    ensures |r.binds| == |nsm.binds| + 1 && r.binds[..|nsm.binds|] == nsm.binds
    ensures r.binds[|nsm.binds|] == BindCall(prefix, namespace, replace)
  {
    NamespaceManager(nsm.binds + [BindCall(prefix, namespace, replace)])
  }

  /** Whether a text starts with `?`, the mark of a SPARQL variable. */
  predicate IsVariableText(text: string)
  {
    |text| > 0 && text[0] == '?'
  }

  /**
   * `parse_term`: a text starting with `?` is the variable named by the rest
   * of the text; any other text goes to `from_n3`.
   */
  function ParseTerm(text: string, nsm: NamespaceManager, fromN3: FromN3): (r: Term)
    ensures IsVariableText(text) ==> r == Variable(text[1..]) && "?" + r.name == text
    ensures !IsVariableText(text) ==> r == fromN3(text, nsm)
  {
    if IsVariableText(text) then Variable(text[1..]) else fromN3(text, nsm)
  }

  /** Writing a variable as `?name` and parsing it gives the variable back. */
  lemma VariableTextRoundTrip(name: string, nsm: NamespaceManager, fromN3: FromN3)
    ensures ParseTerm("?" + name, nsm, fromN3) == Variable(name)
  {
    assert ("?" + name)[1..] == name;
  }

  /** Whether an IRI text is wrapped as `<…>`: it starts with `<` and ends with `>`. */
  predicate IsWrapped(uri: string)
  {
    |uri| > 0 && uri[0] == '<' && uri[|uri| - 1] == '>'
  }

  /** The IRI text of a prefix declaration, with `<…>` stripped only when both are present. */
  function Unwrap(uri: string): (r: string)
    ensures IsWrapped(uri) ==> "<" + r + ">" == uri
    ensures !IsWrapped(uri) ==> r == uri
  {
    if IsWrapped(uri) then uri[1..|uri| - 1] else uri
  }

  /** Stripping undoes wrapping. */
  lemma UnwrapWrapped(iri: string)
    ensures Unwrap("<" + iri + ">") == iri
  {
    var w := "<" + iri + ">";
    assert IsWrapped(w);
    assert w[1..|w| - 1] == iri;
  }

  /** The bind calls made for the prefix declarations: one per declaration, in order, IRIs unwrapped. */
  function PrefixBinds(prefixes: seq<PrefixToken>): (r: seq<BindCall>)
    ensures |r| == |prefixes|
    ensures forall i :: 0 <= i < |prefixes| ==> r[i] == BindCall(prefixes[i].name, Unwrap(prefixes[i].value), true)
  {
    seq(|prefixes|, i requires 0 <= i < |prefixes| => BindCall(prefixes[i].name, Unwrap(prefixes[i].value), true))
  }

  /** Declaring one more prefix adds one more bind call at the end. */
  lemma PrefixBindsExtend(prefixes: seq<PrefixToken>, i: nat)
    requires i < |prefixes|
    ensures PrefixBinds(prefixes[..i + 1]) ==
            PrefixBinds(prefixes[..i]) + [BindCall(prefixes[i].name, Unwrap(prefixes[i].value), true)]
  {
    var longer, shorter := PrefixBinds(prefixes[..i + 1]), PrefixBinds(prefixes[..i]);
    forall k | 0 <= k < i
      ensures longer[k] == shorter[k]
    {
      assert prefixes[..i + 1][k] == prefixes[..i][k];
    }
  }

  /** The prefix loop of each parser: binds every declared prefix, in order, replacing earlier bindings. */
  method BindPrefixes(nsm: NamespaceManager, prefixes: seq<PrefixToken>) returns (r: NamespaceManager)
    ensures r.binds == nsm.binds + PrefixBinds(prefixes)
  {
    r := nsm;
    for i := 0 to |prefixes|
      invariant r.binds == nsm.binds + PrefixBinds(prefixes[..i])
    {
      var uri := prefixes[i].value;
      if IsWrapped(uri) {
        uri := uri[1..|uri| - 1];
      }
      assert uri == Unwrap(prefixes[i].value);
      r := Bind(r, prefixes[i].name, uri, true);
      PrefixBindsExtend(prefixes, i);
    }
    assert prefixes[..|prefixes|] == prefixes;
  }

  /** The namespace manager a parser ends up with: its default binds, then the declared prefixes. */
  function PrefixedNsm(defaults: NamespaceManager, prefixes: seq<PrefixToken>): NamespaceManager
  {
    NamespaceManager(defaults.binds + PrefixBinds(prefixes))
  }
}
