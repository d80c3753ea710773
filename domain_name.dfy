/**
 * Resolution of a custom domain name (`--domain-name`), which may be a template over
 * the instance metadata, such as "{{.IPv4}}.{{.Region}}" or "custom.{{ .Name }}".
 *
 * 1. A template that names the Name tag needs tag support in IMDS. With an empty
 *    Name the resolution fails with a remediation message before anything is parsed.
 * 2. The Name tag is kebab-cased and the IPv4 dots become dashes. Only the copy of the
 *    metadata that the template sees changes.
 * 3. The template is parsed from the domain exactly as given and executed.
 * 4. The output is tidied in a fixed order: one pass of "--" to "-", one pass of ".."
 *    to ".", both ends trimmed of '-', then of '.', and finally every character
 *    outside [a-zA-Z0-9-.] deleted.
 */
module DomainName {
  import opened Wrappers
  import opened Text
  import opened Kebab
  import opened Imds
  import opened Template

  const NameTagMessage :=
    "to use metadata within a custom domain name, please enable IMDS instance tags support\n"
    + "for your EC2 instance:\n\n  $ dns53 imds --instance-metadata-tags on\n\n"
    + "Or read the official AWS documentation at:\n"
    + "https://docs.aws.amazon.com/AWSEC2/latest/UserGuide/Using_Tags.html#allow-access-to-tags-in-IMDS"

  /** The action whose presence demands a Name tag, once spaces are removed. */
  const NameAction := "{{.Name}}"

  datatype DomainError =
    | NameTagsRequired(message: string)
    | TemplateFailed(cause: TemplateError)

  /** The domain names the Name tag (spaces inside the action do not matter). */
  predicate UsesName(domain: string) {
    Contains(ReplaceAll(domain, " ", ""), NameAction)
  }

  /** The copy of the metadata the template is executed against. */
  function TemplateData(domain: string, md: Metadata): Metadata {
    var named := if UsesName(domain) then md.(name := KebabLower(md.name)) else md;
    named.(ipv4 := ReplaceAll(named.ipv4, ".", "-"))
  }

  // The tidy-up stages, in the order they run.

  function CollapseHyphens(s: string): string { ReplaceAll(s, "--", "-") }
  function CollapseDots(s: string): string { ReplaceAll(s, "..", ".") }
  function TrimEnds(s: string): string { Trim(Trim(s, '-'), '.') }

  function Sanitise(s: string): (r: string)
    ensures forall j :: 0 <= j < |r| ==> IsDomainChar(r[j])
    ensures |r| <= |s|
  {
    var collapsed := CollapseDots(CollapseHyphens(s));
    ReplaceAllShrinks(s, "--", "-");
    ReplaceAllShrinks(CollapseHyphens(s), "..", ".");
    KeepDomainChars(TrimEnds(collapsed))
  }

  /** resolveDomainName */
  function ResolveDomainName(domain: string, md: Metadata): (r: Result<string, DomainError>)
    ensures r.Ok? ==> forall j :: 0 <= j < |r.value| ==> IsDomainChar(r.value[j])
    ensures (UsesName(domain) && md.name == "") <==> r == Err(NameTagsRequired(NameTagMessage))
    ensures !(UsesName(domain) && md.name == "") ==>
      match Render(domain, TemplateData(domain, md))
      case Err(e) => r == Err(TemplateFailed(e))
      case Ok(out) => r == Ok(Sanitise(out))
  {
    if UsesName(domain) && md.name == "" then Err(NameTagsRequired(NameTagMessage))
    else
      match Render(domain, TemplateData(domain, md))
      case Err(e) => Err(TemplateFailed(e))
      case Ok(out) => Ok(Sanitise(out))
  }

  /**
   * The template sees the IPv4 address with every '.' turned into '-' and nothing else
   * changed in it; a Name tag is kebab-cased exactly when the domain names it; the
   * region, VPC, zone and instance id pass through untouched.
   */
  lemma TemplateDataShape(domain: string, md: Metadata)
    ensures var d := TemplateData(domain, md);
      && '.' !in d.ipv4
      && |d.ipv4| == |md.ipv4|
      && (forall j :: 0 <= j < |md.ipv4| ==> d.ipv4[j] == if md.ipv4[j] == '.' then '-' else md.ipv4[j])
      && d.name == (if UsesName(domain) then KebabLower(md.name) else md.name)
      && d.region == md.region && d.vpc == md.vpc && d.az == md.az
      && d.instanceId == md.instanceId && d.tags == md.tags
  {
    ReplaceCharAt(md.ipv4, '.', '-');
    ReplaceCharRemoves(md.ipv4, '.', '-');
  }

  /** When the template sees a Name, it is kebab-shaped. */
  lemma TemplateNameIsKebab(domain: string, md: Metadata)
    requires UsesName(domain)
    ensures IsKebab(TemplateData(domain, md).name)
  {
    KebabLowerShape(md.name);
  }

  /** A domain without any action is only tidied, whatever the metadata. */
  lemma ResolvePlain(domain: string, md: Metadata)
    requires !Contains(domain, Open)
    requires !(UsesName(domain) && md.name == "")
    ensures ResolveDomainName(domain, md) == Ok(Sanitise(domain))
  {
    RenderPlain(domain, TemplateData(domain, md));
  }

  // ---------------------------------------------------------------------------
  // What the tidy-up does and does not guarantee
  // ---------------------------------------------------------------------------

  /** `c` never appears twice in a row in `s`. */
  predicate NoDouble(s: string, c: char) {
    forall j :: 0 <= j < |s| - 1 ==> !(s[j] == c && s[j + 1] == c)
  }

  lemma {:induction false} NoDoubleNoMatch(s: string, c: char)
    requires NoDouble(s, c)
    ensures !Contains(s, [c, c])
    decreases |s|
  {
    if s != [] {
      assert NoDouble(s[1..], c) by {
        forall j | 0 <= j < |s[1..]| - 1
          ensures !(s[1..][j] == c && s[1..][j + 1] == c)
        {
          assert s[1..][j] == s[j + 1] && s[1..][j + 1] == s[j + 2];
        }
      }
      NoDoubleNoMatch(s[1..], c);
      if |s| >= 2 {
        assert !(s[0] == c && s[1] == c);
        assert s[..2][0] == s[0] && s[..2][1] == s[1];
      }
    }
  }

  /** Already tidy text: only domain characters, no doubled '-' or '.', no '-' or '.' at an end. */
  predicate Tidy(s: string) {
    && (forall j :: 0 <= j < |s| ==> IsDomainChar(s[j]))
    && NoDouble(s, '-') && NoDouble(s, '.')
    && (s == [] || (s[0] != '-' && s[0] != '.' && s[|s| - 1] != '-' && s[|s| - 1] != '.'))
  }

  /** Tidy text is left exactly as it is. */
  lemma SanitiseTidy(s: string)
    requires Tidy(s)
    ensures Sanitise(s) == s
  {
    NoDoubleNoMatch(s, '-');
    ReplaceAllNoMatch(s, "--", "-");
    NoDoubleNoMatch(s, '.');
    ReplaceAllNoMatch(s, "..", ".");
  }

  /** The hyphen pass over a run of three: the first pair becomes one hyphen. */
  lemma CollapseRunOfThree()
    ensures CollapseHyphens("a---b") == "a--b"
  {
    var s := "a---b";
    assert !IsPrefix("--", s);
    assert s[1..] == "---b" && IsPrefix("--", s[1..]);
    var t := s[1..][2..];
    assert t == "-b" && !IsPrefix("--", t);
    assert t[1..] == "b" && !IsPrefix("--", t[1..]);
    assert ReplaceAll("b", "--", "-") == "b" by {
      assert "b"[1..] == [];
    }
  }

  /** The hyphen pass over a pair: it becomes one hyphen. */
  lemma CollapseRunOfTwo()
    ensures CollapseHyphens("a--b") == "a-b"
  {
    var s := "a--b";
    assert !IsPrefix("--", s);
    assert s[1..] == "--b" && IsPrefix("--", s[1..]);
    var t := s[1..][2..];
    assert t == "b" && !IsPrefix("--", t);
    assert t[1..] == [];
  }

  /**
   * The stages after the hyphen pass leave alone text of domain characters without a
   * doubled '.' and without '-' or '.' at either end.
   */
  lemma LaterStagesKeep(s: string)
    requires forall j :: 0 <= j < |s| ==> IsDomainChar(s[j])
    requires NoDouble(s, '.')
    requires s == [] || (s[0] != '-' && s[0] != '.' && s[|s| - 1] != '-' && s[|s| - 1] != '.')
    ensures KeepDomainChars(TrimEnds(CollapseDots(s))) == s
  {
    NoDoubleNoMatch(s, '.');
    ReplaceAllNoMatch(s, "..", ".");
    TrimKeeps(s, '-');
    TrimKeeps(s, '.');
  }

  /** One pass is not enough for a run of three hyphens: two are left ... */
  lemma SanitiseRunOfThree()
    ensures Sanitise("a---b") == "a--b"
  {
    CollapseRunOfThree();
    var s := "a--b";
    forall j | 0 <= j < |s| ensures IsDomainChar(s[j]) {}
    forall j | 0 <= j < |s| - 1 ensures !(s[j] == '.' && s[j + 1] == '.') {}
    LaterStagesKeep(s);
  }

  /** A pair of hyphens collapses into one. */
  lemma SanitiseRunOfTwo()
    ensures Sanitise("a--b") == "a-b"
  {
    CollapseRunOfTwo();
    var s := "a-b";
    forall j | 0 <= j < |s| ensures IsDomainChar(s[j]) {}
    forall j | 0 <= j < |s| - 1 ensures !(s[j] == '.' && s[j + 1] == '.') {}
    LaterStagesKeep(s);
  }

  /** So a second pass changes the result of the first: the tidy-up is not idempotent. */
  lemma SanitiseNotIdempotent()
    ensures Sanitise(Sanitise("a---b")) != Sanitise("a---b")
  {
    SanitiseRunOfThree();
    SanitiseRunOfTwo();
  }

  /**
   * The stages before the dot trim leave alone text without a doubled '-' or '.' and
   * without a '-' at either end.
   */
  lemma EarlyStagesKeep(s: string)
    requires NoDouble(s, '-') && NoDouble(s, '.')
    requires s == [] || (s[0] != '-' && s[|s| - 1] != '-')
    ensures Trim(CollapseDots(CollapseHyphens(s)), '-') == s
  {
    NoDoubleNoMatch(s, '-');
    ReplaceAllNoMatch(s, "--", "-");
    NoDoubleNoMatch(s, '.');
    ReplaceAllNoMatch(s, "..", ".");
    TrimKeeps(s, '-');
  }

  /** The dot trim on ".-a" removes only the dot, and the character class keeps the rest. */
  lemma LeadingDotTrim()
    ensures KeepDomainChars(Trim(".-a", '.')) == "-a"
  {
    var s := ".-a";
    assert s[1..] == "-a";
    assert TrimLeft(s, '.') == "-a";
    var t := "-a";
    TrimKeeps(t, '.');
    forall j | 0 <= j < |t| ensures IsDomainChar(t[j]) {}
  }

  /** Hyphens are trimmed before dots, so a hyphen behind a leading dot survives. */
  lemma SanitiseLeadingHyphen()
    ensures Sanitise(".-a") == "-a"
  {
    var s := ".-a";
    forall j | 0 <= j < |s| - 1 ensures !(s[j] == '-' && s[j + 1] == '-') {}
    forall j | 0 <= j < |s| - 1 ensures !(s[j] == '.' && s[j + 1] == '.') {}
    EarlyStagesKeep(s);
    LeadingDotTrim();
  }

  /** The character class deletes the '@' of "a-@". */
  lemma KeepDropsAt()
    ensures KeepDomainChars("a-@") == "a-"
  {
    var s := "a-@";
    assert s[1..] == "-@" && s[1..][1..] == "@" && s[1..][1..][1..] == [];
    assert !IsDomainChar('@');
  }

  /** Characters are deleted after trimming, so a hyphen in front of one survives at the end. */
  lemma SanitiseTrailingHyphen()
    ensures Sanitise("a-@") == "a-"
  {
    var s := "a-@";
    forall j | 0 <= j < |s| - 1 ensures !(s[j] == '-' && s[j + 1] == '-') {}
    forall j | 0 <= j < |s| - 1 ensures !(s[j] == '.' && s[j + 1] == '.') {}
    EarlyStagesKeep(s);
    TrimKeeps(s, '.');
    KeepDropsAt();
  }

  // ---------------------------------------------------------------------------
  // The resolution test cases of cmd/root_test.go. Each lemma takes its domain as a
  // parameter so that the literal is unfolded only as far as the proof asks.
  // ---------------------------------------------------------------------------

  /** Text with no doubled '-' or '.' passes both collapse passes untouched. */
  lemma CollapsesKeep(s: string)
    requires NoDouble(s, '-') && NoDouble(s, '.')
    ensures CollapseDots(CollapseHyphens(s)) == s
  {
    NoDoubleNoMatch(s, '-');
    ReplaceAllNoMatch(s, "--", "-");
    NoDoubleNoMatch(s, '.');
    ReplaceAllNoMatch(s, "..", ".");
  }

  /** The trims and the character class leave alone domain text with no '-' or '.' at an end. */
  lemma FinalStagesKeep(s: string)
    requires forall j :: 0 <= j < |s| ==> IsDomainChar(s[j])
    requires s == [] || (s[0] != '-' && s[0] != '.' && s[|s| - 1] != '-' && s[|s| - 1] != '.')
    ensures KeepDomainChars(TrimEnds(s)) == s
  {
    TrimKeeps(s, '-');
    TrimKeeps(s, '.');
  }

  /** The tidy-up, stage by stage. */
  lemma SanitiseVia(s: string, collapsed: string, trimmed: string)
    requires CollapseDots(CollapseHyphens(s)) == collapsed
    requires TrimEnds(collapsed) == trimmed
    ensures Sanitise(s) == KeepDomainChars(trimmed)
  {
  }

  /** A domain without braces or spaces names no field and is only tidied. */
  lemma PlainDomain(domain: string, md: Metadata)
    requires '{' !in domain && ' ' !in domain
    ensures ResolveDomainName(domain, md) == Ok(Sanitise(domain))
  {
    NotContainsHead(domain, " ");
    ReplaceAllNoMatch(domain, " ", "");
    NotContainsHead(domain, NameAction);
    NotContainsHead(domain, Open);
    ResolvePlain(domain, md);
  }

  /** The pass over `c` when `c` is doubled exactly once and nowhere earlier. */
  lemma CollapseOnePair(s: string, a: string, b: string, c: char)
    requires s == a + [c, c] + b && c !in a && NoDouble(b, c)
    ensures ReplaceAll(s, [c, c], [c]) == a + [c] + b
  {
    CollapseAt(a, b, c);
    NoDoubleNoMatch(b, c);
    ReplaceAllNoMatch(b, [c, c], [c]);
  }

  /** Characters outside the class all go. */
  lemma {:induction false} KeepDropsAll(y: string)
    requires forall j :: 0 <= j < |y| ==> !IsDomainChar(y[j])
    ensures KeepDomainChars(y) == []
    decreases |y|
  {
    if y != [] {
      KeepDropsAll(y[1..]);
    }
  }

  /** Once the hyphen pass yields tidy text, the rest of the tidy-up keeps it. */
  lemma SanitiseAfterHyphens(s: string, t: string)
    requires CollapseHyphens(s) == t && Tidy(t)
    ensures Sanitise(s) == t
  {
    LaterStagesKeep(t);
  }

  /** The class keeps a piece made only of domain characters in front of the rest. */
  lemma KeepKept(x: string, y: string)
    requires forall j :: 0 <= j < |x| ==> IsDomainChar(x[j])
    ensures KeepDomainChars(x + y) == x + KeepDomainChars(y)
  {
    KeepDomainCharsAppend(x, y);
  }

  /** The class drops a piece with no domain character in front of the rest. */
  lemma KeepDropped(x: string, y: string)
    requires forall j :: 0 <= j < |x| ==> !IsDomainChar(x[j])
    ensures KeepDomainChars(x + y) == KeepDomainChars(y)
  {
    KeepDomainCharsAppend(x, y);
    KeepDropsAll(x);
  }

  // The facts each test case needs about its own literals. The pieces come back as
  // out-parameters so that the case itself reasons about them symbolically.

  lemma CustomDomainParts(s: string)
    requires s == "custom.domain"
    ensures '{' !in s && ' ' !in s && Tidy(s)
  {
    forall j | 0 <= j < |s| ensures s[j] != '{' && s[j] != ' ' && IsDomainChar(s[j]) {}
    forall j | 0 <= j < |s| - 1 ensures !(s[j] == '-' && s[j + 1] == '-') {}
    forall j | 0 <= j < |s| - 1 ensures !(s[j] == '.' && s[j + 1] == '.') {}
  }

  lemma AnotherPlain(s: string)
    requires s == "another--custom.domain"
    ensures '{' !in s && ' ' !in s
  {
    forall j | 0 <= j < |s| ensures s[j] != '{' && s[j] != ' ' {}
  }

  lemma AnotherParts(s: string) returns (a: string, b: string)
    requires s == "another--custom.domain"
    ensures s == a + ['-', '-'] + b && '-' !in a && NoDouble(b, '-')
    ensures a + ['-'] + b == "another-custom.domain"
  {
    a, b := "another", "custom.domain";
    forall j | 0 <= j < |b| - 1 ensures !(b[j] == '-' && b[j + 1] == '-') {}
  }

  lemma TidyAnother(s: string)
    requires s == "another-custom.domain"
    ensures Tidy(s)
  {
    forall j | 0 <= j < |s| ensures IsDomainChar(s[j]) {}
    forall j | 0 <= j < |s| - 1 ensures !(s[j] == '-' && s[j + 1] == '-') {}
    forall j | 0 <= j < |s| - 1 ensures !(s[j] == '.' && s[j + 1] == '.') {}
  }

  lemma MyCustomPlain(s: string)
    requires s == "my-custom123..domain"
    ensures '{' !in s && ' ' !in s
  {
    forall j | 0 <= j < |s| ensures s[j] != '{' && s[j] != ' ' {}
  }

  lemma MyCustomParts(s: string) returns (a: string, b: string)
    requires s == "my-custom123..domain"
    ensures NoDouble(s, '-')
    ensures s == a + ['.', '.'] + b && '.' !in a && NoDouble(b, '.')
    ensures a + ['.'] + b == "my-custom123.domain"
  {
    a, b := "my-custom123", "domain";
    forall j | 0 <= j < |s| - 1 ensures !(s[j] == '-' && s[j + 1] == '-') {}
  }

  lemma TidyMyCustom(s: string)
    requires s == "my-custom123.domain"
    ensures Tidy(s)
  {
    forall j | 0 <= j < |s| ensures IsDomainChar(s[j]) {}
    forall j | 0 <= j < |s| - 1 ensures !(s[j] == '-' && s[j + 1] == '-') {}
    forall j | 0 <= j < |s| - 1 ensures !(s[j] == '.' && s[j + 1] == '.') {}
  }

  lemma ThisIsPlain(s: string)
    requires s == "-this-is-a-custom.domain-"
    ensures '{' !in s && ' ' !in s
  {
    forall j | 0 <= j < |s| ensures s[j] != '{' && s[j] != ' ' {}
  }

  lemma ThisIsParts(s: string) returns (a: string)
    requires s == "-this-is-a-custom.domain-"
    ensures NoDouble(s, '-') && NoDouble(s, '.')
    ensures s == ['-'] + a + ['-'] && a == "this-is-a-custom.domain"
  {
    a := "this-is-a-custom.domain";
    forall j | 0 <= j < |s| - 1 ensures !(s[j] == '-' && s[j + 1] == '-') {}
    forall j | 0 <= j < |s| - 1 ensures !(s[j] == '.' && s[j + 1] == '.') {}
  }

  lemma TidyThisIs(s: string)
    requires s == "this-is-a-custom.domain"
    ensures Tidy(s)
  {
    forall j | 0 <= j < |s| ensures IsDomainChar(s[j]) {}
    forall j | 0 <= j < |s| - 1 ensures !(s[j] == '-' && s[j + 1] == '-') {}
    forall j | 0 <= j < |s| - 1 ensures !(s[j] == '.' && s[j + 1] == '.') {}
  }

  lemma ACustomPlain(s: string)
    requires s == ".a-custom.domain."
    ensures '{' !in s && ' ' !in s
  {
    forall j | 0 <= j < |s| ensures s[j] != '{' && s[j] != ' ' {}
  }

  lemma ACustomParts(s: string) returns (a: string)
    requires s == ".a-custom.domain."
    ensures NoDouble(s, '-') && NoDouble(s, '.')
    ensures s == ['.'] + a + ['.'] && a == "a-custom.domain"
  {
    a := "a-custom.domain";
    forall j | 0 <= j < |s| - 1 ensures !(s[j] == '-' && s[j + 1] == '-') {}
    forall j | 0 <= j < |s| - 1 ensures !(s[j] == '.' && s[j + 1] == '.') {}
  }

  lemma TidyACustom(s: string)
    requires s == "a-custom.domain"
    ensures Tidy(s)
  {
    forall j | 0 <= j < |s| ensures IsDomainChar(s[j]) {}
    forall j | 0 <= j < |s| - 1 ensures !(s[j] == '-' && s[j + 1] == '-') {}
    forall j | 0 <= j < |s| - 1 ensures !(s[j] == '.' && s[j + 1] == '.') {}
  }

  lemma UnsupportedPlain(s: string)
    requires s == "custom@#.doma**in-123"
    ensures '{' !in s && ' ' !in s
  {
    forall j | 0 <= j < |s| ensures s[j] != '{' && s[j] != ' ' {}
  }

  lemma UnsupportedParts(s: string) returns (p1: string, p2: string, p3: string, p4: string, p5: string)
    requires s == "custom@#.doma**in-123"
    ensures NoDouble(s, '-') && NoDouble(s, '.')
    ensures s != [] && s[0] == 'c' && s[|s| - 1] == '3'
    ensures s == p1 + (p2 + (p3 + (p4 + p5)))
    ensures forall j :: 0 <= j < |p1| ==> IsDomainChar(p1[j])
    ensures forall j :: 0 <= j < |p2| ==> !IsDomainChar(p2[j])
    ensures forall j :: 0 <= j < |p3| ==> IsDomainChar(p3[j])
    ensures forall j :: 0 <= j < |p4| ==> !IsDomainChar(p4[j])
    ensures forall j :: 0 <= j < |p5| ==> IsDomainChar(p5[j])
    ensures p1 + (p3 + p5) == "custom.domain-123"
  {
    p1, p2, p3, p4, p5 := "custom", "@#", ".doma", "**", "in-123";
    forall j | 0 <= j < |s| - 1 ensures !(s[j] == '-' && s[j + 1] == '-') {}
    forall j | 0 <= j < |s| - 1 ensures !(s[j] == '.' && s[j + 1] == '.') {}
  }

  // The table of cmd/root_test.go:41-94, one lemma per row, for any metadata.

  /** NoTemplating: "custom.domain" stays as it is. */
  lemma ResolveNoTemplating(domain: string, md: Metadata)
    requires domain == "custom.domain"
    ensures ResolveDomainName(domain, md) == Ok("custom.domain")
  {
    CustomDomainParts(domain);
    PlainDomain(domain, md);
    SanitiseTidy(domain);
  }

  /** ReplacesDoubleHyphens: "another--custom.domain" gives "another-custom.domain". */
  lemma ResolveDoubleHyphens(domain: string, md: Metadata)
    requires domain == "another--custom.domain"
    ensures ResolveDomainName(domain, md) == Ok("another-custom.domain")
  {
    AnotherPlain(domain);
    var a, b := AnotherParts(domain);
    PlainDomain(domain, md);
    var t := a + ['-'] + b;
    CollapseOnePair(domain, a, b, '-');
    TidyAnother(t);
    SanitiseAfterHyphens(domain, t);
  }

  /** ReplacesDoubleDots: "my-custom123..domain" gives "my-custom123.domain". */
  lemma ResolveDoubleDots(domain: string, md: Metadata)
    requires domain == "my-custom123..domain"
    ensures ResolveDomainName(domain, md) == Ok("my-custom123.domain")
  {
    MyCustomPlain(domain);
    var a, b := MyCustomParts(domain);
    PlainDomain(domain, md);
    NoDoubleNoMatch(domain, '-');
    ReplaceAllNoMatch(domain, "--", "-");
    var t := a + ['.'] + b;
    CollapseOnePair(domain, a, b, '.');
    TidyMyCustom(t);
    FinalStagesKeep(t);
    SanitiseVia(domain, t, TrimEnds(t));
  }

  /** RemoveLeadingTrailingHyphen: "-this-is-a-custom.domain-" loses both hyphens. */
  lemma ResolveEdgeHyphens(domain: string, md: Metadata)
    requires domain == "-this-is-a-custom.domain-"
    ensures ResolveDomainName(domain, md) == Ok("this-is-a-custom.domain")
  {
    ThisIsPlain(domain);
    var a := ThisIsParts(domain);
    PlainDomain(domain, md);
    CollapsesKeep(domain);
    TidyThisIs(a);
    TrimOne(a, '-');
    TrimKeeps(a, '.');
    SanitiseVia(domain, domain, a);
  }

  /** RemoveLeadingTrailingDot: ".a-custom.domain." loses both dots. */
  lemma ResolveEdgeDots(domain: string, md: Metadata)
    requires domain == ".a-custom.domain."
    ensures ResolveDomainName(domain, md) == Ok("a-custom.domain")
  {
    ACustomPlain(domain);
    var a := ACustomParts(domain);
    PlainDomain(domain, md);
    CollapsesKeep(domain);
    TidyACustom(a);
    TrimKeeps(domain, '-');
    TrimOne(a, '.');
    SanitiseVia(domain, domain, a);
  }

  /** TrimUnsupportedCharacters: "custom@#.doma**in-123" gives "custom.domain-123". */
  lemma ResolveUnsupportedChars(domain: string, md: Metadata)
    requires domain == "custom@#.doma**in-123"
    ensures ResolveDomainName(domain, md) == Ok("custom.domain-123")
  {
    UnsupportedPlain(domain);
    var p1, p2, p3, p4, p5 := UnsupportedParts(domain);
    PlainDomain(domain, md);
    CollapsesKeep(domain);
    TrimKeeps(domain, '-');
    TrimKeeps(domain, '.');
    KeepKept(p1, p2 + (p3 + (p4 + p5)));
    KeepDropped(p2, p3 + (p4 + p5));
    KeepKept(p3, p4 + p5);
    KeepDropped(p4, p5);
    SanitiseVia(domain, domain, domain);
  }

  /** The domain of the name-tag tests names the Name tag. */
  lemma NamesTag(domain: string, prefix: string)
    requires ' ' !in domain && domain == prefix + NameAction
    ensures UsesName(domain)
  {
    NotContainsHead(domain, " ");
    ReplaceAllNoMatch(domain, " ", "");
    ContainsTail(prefix, NameAction);
  }

  /** TestResolveDomainNameNoInstanceTags: without a Name tag the remediation error is returned. */
  lemma ResolveNoInstanceTags(domain: string, md: Metadata)
    requires domain == "custom.{{.Name}}" && md.name == ""
    ensures ResolveDomainName(domain, md) == Err(NameTagsRequired(NameTagMessage))
  {
    NamesTag(domain, "custom.");
  }

  /** TestResolveDomainNameInvalidGoTemplate: an action closed by one brace fails to parse. */
  lemma ResolveInvalidTemplate(domain: string, md: Metadata)
    requires domain == "custom.{{.Name}" && md.name != ""
    ensures ResolveDomainName(domain, md) == Err(TemplateFailed(UnclosedAction))
  {
    var a, b := "custom.", ".Name}";
    assert domain == a + Open + b;
    forall j | 0 <= j < |b| - 1 ensures !(b[j] == '}' && b[j + 1] == '}') {}
    RenderUnclosed(a, b, TemplateData(domain, md));
  }

  /** "{{.Unknown}}" is not the Name action, and holds no copy of it. */
  lemma UnknownNotName(t: string)
    requires t == "{{.Unknown}}"
    ensures !Contains(t, NameAction)
  {
    assert !IsPrefix(NameAction, t) by { assert t[3] != NameAction[3]; }
    assert !IsPrefix(NameAction, t[1..]) by { assert t[1..][1] != NameAction[1]; }
    assert t[1..][1..] == t[2..];
    assert t[2..] == ".Unknown}}";
    NotContainsHead(t[2..], NameAction);
  }

  lemma UnknownIsFieldRef()
    ensures IsFieldRef(".Unknown")
  {
    var x := ".Unknown";
    forall j | 1 <= j < |x| ensures IsIdentChar(x[j]) {}
  }

  lemma UnknownParts(s: string) returns (a: string, t: string)
    requires s == "custom.{{.Unknown}}"
    ensures s == a + t && a == "custom." && t == "{{.Unknown}}"
    ensures ' ' !in s && '{' !in a && t == Open + "." + "Unknown" + Close + ""
  {
    a, t := "custom.", "{{.Unknown}}";
    assert s == a + t;
    forall j | 0 <= j < |s| ensures s[j] != ' ' {}
  }

  /** A plain prefix followed by one action naming a field the metadata lacks fails on that field. */
  lemma ResolveUnknownAction(domain: string, prefix: string, f: string, md: Metadata)
    requires '{' !in prefix && domain == prefix + (Open + "." + f + Close + "")
    requires IsFieldRef("." + f) && FieldValue(md, f).None? && !UsesName(domain)
    ensures ResolveDomainName(domain, md) == Err(TemplateFailed(UnknownField(f)))
  {
    var data := TemplateData(domain, md);
    assert FieldValue(data, f).None?;
    NotContainsHead("", Open);
    RenderField(f, "", data);
    RenderPrefix(prefix, Open + "." + f + Close + "", data);
  }

  /** TestResolveDomainNameUnrecognisedTemplateFields: "custom.{{.Unknown}}" fails on the unknown field. */
  lemma ResolveUnknownField(domain: string, md: Metadata)
    requires domain == "custom.{{.Unknown}}"
    ensures ResolveDomainName(domain, md) == Err(TemplateFailed(UnknownField("Unknown")))
  {
    var a, t := UnknownParts(domain);
    NotContainsHead(domain, " ");
    ReplaceAllNoMatch(domain, " ", "");
    ContainsSkip(a, t, NameAction);
    UnknownNotName(t);
    UnknownIsFieldRef();
    ResolveUnknownAction(domain, a, "Unknown", md);
  }

  lemma NameIsFieldRef()
    ensures IsFieldRef(".Name")
  {
    var x := ".Name";
    forall j | 1 <= j < |x| ensures IsIdentChar(x[j]) {}
  }

  lemma NameActionSpelled()
    ensures Open + "." + "Name" + Close + "" == NameAction
  {
  }

  /** Plain text followed by one field action renders to that text followed by the field's value. */
  lemma RenderPrefixField(prefix: string, f: string, data: Metadata)
    requires '{' !in prefix && IsFieldRef("." + f) && FieldValue(data, f).Some?
    ensures Render(prefix + (Open + "." + f + Close + ""), data) == Ok(prefix + FieldValue(data, f).value)
  {
    RenderField(f, "", data);
    assert FieldValue(data, f).value + "" == FieldValue(data, f).value;
    RenderPrefix(prefix, Open + "." + f + Close + "", data);
  }

  /** A domain of plain text ending in {{.Name}} resolves to the tidied text and kebab-cased Name. */
  lemma ResolveNamed(domain: string, prefix: string, md: Metadata)
    requires '{' !in prefix && ' ' !in prefix && domain == prefix + NameAction && md.name != ""
    ensures ResolveDomainName(domain, md) == Ok(Sanitise(prefix + KebabLower(md.name)))
  {
    assert ' ' !in NameAction;
    NamesTag(domain, prefix);
    NameActionSpelled();
    NameIsFieldRef();
    var data := TemplateData(domain, md);
    assert FieldValue(data, "Name") == Some(data.name);
    RenderPrefixField(prefix, "Name", data);
  }

  lemma TidyCustomMyEc2(prefix: string, name: string)
    requires prefix == "custom." && name == "my-ec2"
    ensures Tidy(prefix + name) && prefix + name == "custom.my-ec2"
  {
    var s := prefix + name;
    assert s == "custom.my-ec2";
    forall j | 0 <= j < |s| ensures IsDomainChar(s[j]) {}
    forall j | 0 <= j < |s| - 1 ensures !(s[j] == '-' && s[j + 1] == '-') {}
    forall j | 0 <= j < |s| - 1 ensures !(s[j] == '.' && s[j + 1] == '.') {}
  }

  lemma TidyFirstCustom(prefix: string, name: string)
    requires prefix == "first.custom." && name == "my-ec2-123"
    ensures Tidy(prefix + name) && prefix + name == "first.custom.my-ec2-123"
  {
    var s := prefix + name;
    assert s == "first.custom.my-ec2-123";
    forall j | 0 <= j < |s| ensures IsDomainChar(s[j]) {}
    forall j | 0 <= j < |s| - 1 ensures !(s[j] == '-' && s[j + 1] == '-') {}
    forall j | 0 <= j < |s| - 1 ensures !(s[j] == '.' && s[j + 1] == '.') {}
  }

  /** WithNameField: "custom.{{.Name}}" with the Name "my-ec2" gives "custom.my-ec2". */
  lemma ResolveWithNameField(domain: string, md: Metadata)
    requires domain == "custom.{{.Name}}" && md.name == "my-ec2"
    ensures ResolveDomainName(domain, md) == Ok("custom.my-ec2")
  {
    var prefix := "custom.";
    ResolveNamed(domain, prefix, md);
    KebabKeptExample();
    TidyCustomMyEc2(prefix, KebabLower(md.name));
    SanitiseTidy(prefix + KebabLower(md.name));
  }

  /** TestResolveDomainNameTransformsNameTagToKebabCase: "MyEc2 123" is kebab-cased into the name. */
  lemma ResolveKebabName(domain: string, md: Metadata)
    requires domain == "first.custom.{{.Name}}" && md.name == "MyEc2 123"
    ensures ResolveDomainName(domain, md) == Ok("first.custom.my-ec2-123")
  {
    var prefix := "first.custom.";
    ResolveNamed(domain, prefix, md);
    KebabExample();
    TidyFirstCustom(prefix, KebabLower(md.name));
    SanitiseTidy(prefix + KebabLower(md.name));
  }
}
