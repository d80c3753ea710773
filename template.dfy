/**
 * The part of Go's text/template that a custom domain name can use: literal text and
 * actions that name one field of the instance metadata, such as `{{.IPv4}}` or
 * `{{ .Name }}`. A template is parsed first and executed afterwards, and each phase
 * has its own errors.
 */
module Template {
  import opened Wrappers
  import opened Text
  import opened Imds

  datatype Node = Lit(c: char) | Field(name: string)

  datatype TemplateError =
    | UnclosedAction        // "{{" without a later "}}"
    | BadAction(text: string) // an action that is not a single field reference
    | UnknownField(name: string) // execution reached a field the metadata does not have

  const Open := "{{"
  const Close := "}}"

  /** The position of the first "}}" in `s`, if there is one. */
  function FindClose(s: string): (r: Option<nat>)
    ensures r.Some? ==> r.value + 2 <= |s| && s[r.value] == '}' && s[r.value + 1] == '}'
    ensures r.Some? ==> forall j :: 0 <= j < r.value ==> !(s[j] == '}' && s[j + 1] == '}')
    ensures r.None? ==> forall j :: 0 <= j < |s| - 1 ==> !(s[j] == '}' && s[j + 1] == '}')
  {
    if |s| < 2 then None
    else if s[0] == '}' && s[1] == '}' then Some(0)
    else match FindClose(s[1..])
      case None => None
      case Some(i) => Some(i + 1)
  }

  predicate IsIdentChar(c: char) {
    IsLower(c) || IsUpper(c) || ('0' <= c <= '9') || c == '_'
  }

  /** `.Name`: a dot followed by a non-empty identifier. */
  predicate IsFieldRef(a: string) {
    |a| >= 2 && a[0] == '.' && forall j :: 1 <= j < |a| ==> IsIdentChar(a[j])
  }

  /** The text between "{{" and "}}", with the surrounding spaces removed. */
  function ActionText(inner: string): string {
    Trim(inner, ' ')
  }

  /** Parse: the nodes of `s`, in order, or the first parse error. */
  function Parse(s: string): Result<seq<Node>, TemplateError>
    decreases |s|
  {
    if s == [] then Ok([])
    else if IsPrefix(Open, s) then
      var body := s[2..];
      match FindClose(body)
      case None => Err(UnclosedAction)
      case Some(i) =>
        var action := ActionText(body[..i]);
        if !IsFieldRef(action) then Err(BadAction(action))
        else
          var rest := Parse(body[i + 2..]);
          if rest.Err? then rest else Ok([Field(action[1..])] + rest.value)
    else
      var rest := Parse(s[1..]);
      if rest.Err? then rest else Ok([Lit(s[0])] + rest.value)
  }

  /** The metadata fields a domain template may name, with their values. */
  function FieldValue(md: Metadata, name: string): Option<string> {
    if name == "IPv4" then Some(md.ipv4)
    else if name == "Region" then Some(md.region)
    else if name == "VPC" then Some(md.vpc)
    else if name == "AZ" then Some(md.az)
    else if name == "InstanceID" then Some(md.instanceId)
    else if name == "Name" then Some(md.name)
    else None
  }

  /** One node: a literal is its character, a field its value in the metadata. */
  function ExecuteNode(n: Node, md: Metadata): Result<string, TemplateError> {
    match n
    case Lit(c) => Ok([c])
    case Field(f) => if FieldValue(md, f).Some? then Ok(FieldValue(md, f).value) else Err(UnknownField(f))
  }

  /** Execute: the nodes rendered against the metadata, or the first unknown field. */
  function Execute(nodes: seq<Node>, md: Metadata): (r: Result<string, TemplateError>)
    ensures r.Err? <==> exists k :: 0 <= k < |nodes| && nodes[k].Field? && FieldValue(md, nodes[k].name).None?
    ensures r.Err? ==> r.error.UnknownField?
  {
    if nodes == [] then Ok([])
    else
      var head := ExecuteNode(nodes[0], md);
      if head.Err? then Err(head.error)
      else
        var rest := Execute(nodes[1..], md);
        if rest.Err? then rest else Ok(head.value + rest.value)
  }

  /** template.New(..).Parse(s) followed by Execute. */
  function Render(s: string, md: Metadata): Result<string, TemplateError> {
    match Parse(s)
    case Err(e) => Err(e)
    case Ok(nodes) => Execute(nodes, md)
  }

  /** The literal nodes of plain text. */
  function Lits(s: string): seq<Node> {
    if s == [] then [] else [Lit(s[0])] + Lits(s[1..])
  }

  /** Text without "{{" parses into its own characters. */
  lemma {:induction false} ParsePlain(s: string)
    requires !Contains(s, Open)
    ensures Parse(s) == Ok(Lits(s))
    decreases |s|
  {
    if s != [] {
      assert !IsPrefix(Open, s);
      ParsePlain(s[1..]);
    }
  }

  lemma {:induction false} ExecuteLits(s: string, md: Metadata)
    ensures Execute(Lits(s), md) == Ok(s)
    decreases |s|
  {
    if s != [] {
      ExecuteLits(s[1..], md);
      var nodes := Lits(s);
      assert nodes[0] == Lit(s[0]);
      assert nodes[1..] == Lits(s[1..]);
      assert s == [s[0]] + s[1..];
    }
  }

  /** A domain without any action renders to itself, whatever the metadata. */
  lemma RenderPlain(s: string, md: Metadata)
    requires !Contains(s, Open)
    ensures Render(s, md) == Ok(s)
  {
    ParsePlain(s);
    ExecuteLits(s, md);
  }

  /** An action that is never closed is a parse error, however the text before it looks. */
  lemma {:induction false} RenderUnclosed(a: string, b: string, md: Metadata)
    requires '{' !in a
    requires forall j :: 0 <= j < |b| - 1 ==> !(b[j] == '}' && b[j + 1] == '}')
    ensures Render(a + Open + b, md) == Err(UnclosedAction)
    decreases |a|
  {
    var s := a + Open + b;
    if a == [] {
      assert s == Open + b;
      assert s[2..] == b;
    } else {
      assert s[1..] == a[1..] + Open + b;
      assert !IsPrefix(Open, s);
      RenderUnclosed(a[1..], b, md);
    }
  }

  /** `a` in front of a successful result; an error stays as it is. */
  function Prepend<T>(a: seq<T>, r: Result<seq<T>, TemplateError>): Result<seq<T>, TemplateError> {
    if r.Ok? then Ok(a + r.value) else r
  }

  /** Literal text in front of a template parses into its own characters. */
  lemma {:induction false} ParsePrefix(a: string, t: string)
    requires '{' !in a
    ensures Parse(a + t) == Prepend(Lits(a), Parse(t))
    decreases |a|
  {
    if a == [] {
      assert a + t == t;
      assert Lits(a) == [];
      if Parse(t).Ok? {
        assert Lits(a) + Parse(t).value == Parse(t).value;
      }
    } else {
      var s := a + t;
      assert s[1..] == a[1..] + t;
      assert !IsPrefix(Open, s);
      ParsePrefix(a[1..], t);
      if Parse(t).Ok? {
        assert Lits(a) + Parse(t).value == [Lit(a[0])] + (Lits(a[1..]) + Parse(t).value);
      }
    }
  }

  /** One literal node in front renders as its character in front. */
  lemma ExecuteLitStep(c: char, rest: seq<Node>, md: Metadata)
    ensures Execute([Lit(c)] + rest, md) == Prepend([c], Execute(rest, md))
  {
    var all := [Lit(c)] + rest;
    assert all[0] == Lit(c) && all[1..] == rest;
  }

  lemma PrependTwice<T>(a: seq<T>, b: seq<T>, r: Result<seq<T>, TemplateError>)
    ensures Prepend(a, Prepend(b, r)) == Prepend(a + b, r)
  {
    if r.Ok? {
      assert a + (b + r.value) == (a + b) + r.value;
    }
  }

  /** Literal nodes in front of others render as their characters in front. */
  lemma {:induction false} ExecuteLitsPrefix(a: string, nodes: seq<Node>, md: Metadata)
    ensures Execute(Lits(a) + nodes, md) == Prepend(a, Execute(nodes, md))
    decreases |a|
  {
    if a == [] {
      assert Lits(a) + nodes == nodes;
      if Execute(nodes, md).Ok? {
        assert a + Execute(nodes, md).value == Execute(nodes, md).value;
      }
    } else {
      var rest := Lits(a[1..]) + nodes;
      assert Lits(a) + nodes == [Lit(a[0])] + rest by {
        assert Lits(a) == [Lit(a[0])] + Lits(a[1..]);
      }
      ExecuteLitStep(a[0], rest, md);
      ExecuteLitsPrefix(a[1..], nodes, md);
      PrependTwice([a[0]], a[1..], Execute(nodes, md));
      assert [a[0]] + a[1..] == a;
    }
  }

  /**
   * Executing two node lists one after the other: the text of the first followed by the
   * text of the second, or the first error met, scanning from the front.
   */
  lemma {:induction false} ExecuteAppend(a: seq<Node>, b: seq<Node>, md: Metadata)
    ensures Execute(a + b, md) == if Execute(a, md).Err? then Execute(a, md) else Prepend(Execute(a, md).value, Execute(b, md))
    decreases |a|
  {
    if a == [] {
      assert a + b == b;
      if Execute(b, md).Ok? {
        assert [] + Execute(b, md).value == Execute(b, md).value;
      }
    } else {
      var ab := a + b;
      assert ab[0] == a[0] && ab[1..] == a[1..] + b;
      ExecuteAppend(a[1..], b, md);
      if Execute(a, md).Ok? && Execute(b, md).Ok? {
        var head := ExecuteNode(a[0], md).value;
        assert head + (Execute(a[1..], md).value + Execute(b, md).value)
            == (head + Execute(a[1..], md).value) + Execute(b, md).value;
      }
    }
  }

  /** Literal text in front of a template is copied through unchanged, and errors are kept. */
  lemma RenderPrefix(a: string, t: string, md: Metadata)
    requires '{' !in a
    ensures Render(a + t, md) == Prepend(a, Render(t, md))
  {
    ParsePrefix(a, t);
    if Parse(t).Ok? {
      ExecuteLitsPrefix(a, Parse(t).value, md);
    }
  }

  /** The first "}}" after text without '}' closes right after that text. */
  lemma {:induction false} FindCloseAfter(x: string, b: string)
    requires '}' !in x
    ensures FindClose(x + Close + b) == Some(|x|)
    decreases |x|
  {
    var s := x + Close + b;
    if x != [] {
      assert s[1..] == x[1..] + Close + b;
      FindCloseAfter(x[1..], b);
    }
  }

  /** A field reference carries no space, brace or other punctuation besides its dot. */
  lemma FieldRefShape(x: string)
    requires IsFieldRef(x)
    ensures '}' !in x && '{' !in x
  {
    assert forall j :: 0 <= j < |x| ==> IsIdentChar(x[j]) || x[j] == '.';
  }

  /** The action text of a closed field reference is the reference itself. */
  lemma FieldAction(x: string, b: string)
    requires IsFieldRef(x)
    ensures ActionText((x + Close + b)[..|x|]) == x
  {
    assert (x + Close + b)[..|x|] == x;
    assert x[|x| - 1] != ' ';
  }

  /** A closed field reference `x`, followed by text without a further action, parses into one field node. */
  lemma ParseField(x: string, b: string)
    requires IsFieldRef(x)
    requires !Contains(b, Open)
    ensures Parse(Open + x + Close + b) == Ok([Field(x[1..])] + Lits(b))
  {
    var s := Open + x + Close + b;
    var body := x + Close + b;
    assert s[..2] == Open && s[2..] == body;
    assert IsPrefix(Open, s);
    FieldRefShape(x);
    FindCloseAfter(x, b);
    FieldAction(x, b);
    assert body[|x| + 2..] == b;
    ParsePlain(b);
  }

  /** Such a template renders to the field's value followed by the text, or fails on an unknown field. */
  lemma RenderField(f: string, b: string, md: Metadata)
    requires IsFieldRef("." + f)
    requires !Contains(b, Open)
    ensures FieldValue(md, f).Some? ==> Render(Open + "." + f + Close + b, md) == Ok(FieldValue(md, f).value + b)
    ensures FieldValue(md, f).None? ==> Render(Open + "." + f + Close + b, md) == Err(UnknownField(f))
  {
    assert Open + "." + f + Close + b == Open + ("." + f) + Close + b;
    ParseField("." + f, b);
    assert ("." + f)[1..] == f;
    ExecuteLits(b, md);
    var nodes := [Field(f)] + Lits(b);
    assert nodes[0] == Field(f);
    assert nodes[1..] == Lits(b);
  }
}
