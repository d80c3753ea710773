/**
 * The kebab-casing applied to an instance's Name tag before it is substituted into a
 * domain template: `stringy.New(name).KebabCase().ToLower()`.
 *
 * The library splits camel-case humps, treats '.', '_', '-' and spaces as word
 * delimiters, drops empty words and joins the remaining words with '-'.
 */
module Kebab {
  import opened Text

  /** A space is inserted between a lower-case letter and the upper-case letter after it. */
  function SplitCamel(s: string): string
    decreases |s|
  {
    if |s| < 2 then s
    else if IsLower(s[0]) && IsUpper(s[1]) then [s[0], ' '] + SplitCamel(s[1..])
    else [s[0]] + SplitCamel(s[1..])
  }

  predicate IsDelimiter(c: char) {
    c == ' ' || c == '.' || c == '_' || c == '-'
  }

  /** Every delimiter becomes a space. */
  function Blank(s: string): string {
    if s == [] then [] else [if IsDelimiter(s[0]) then ' ' else s[0]] + Blank(s[1..])
  }

  /** Blanking keeps the length, turns exactly the delimiters into spaces and keeps the rest. */
  lemma {:induction false} BlankSpaces(s: string)
    ensures |Blank(s)| == |s|
    ensures forall j :: 0 <= j < |s| ==> Blank(s)[j] == if IsDelimiter(s[j]) then ' ' else s[j]
    decreases |s|
  {
    if s != [] {
      BlankSpaces(s[1..]);
    }
  }

  /** The non-empty pieces of `parts`, in order. */
  function NonEmpty(parts: seq<string>): (r: seq<string>)
    ensures forall k :: 0 <= k < |r| ==> r[k] != []
    ensures forall k :: 0 <= k < |r| ==> r[k] in parts
  {
    if parts == [] then []
    else if parts[0] == [] then NonEmpty(parts[1..])
    else [parts[0]] + NonEmpty(parts[1..])
  }

  /** strings.Fields over spaces: the maximal runs of non-space characters. */
  function Fields(s: string): seq<string> {
    NonEmpty(Split(s, ' '))
  }

  /** Non-empty words free of every delimiter. */
  predicate AreWords(words: seq<string>) {
    forall k :: 0 <= k < |words| ==>
      words[k] != [] && forall j :: 0 <= j < |words[k]| ==> !IsDelimiter(words[k][j])
  }

  /** Once every delimiter is blanked, the fields are delimiter-free words. */
  lemma FieldsAreWords(s: string)
    requires forall i :: 0 <= i < |s| ==> s[i] == ' ' || !IsDelimiter(s[i])
    ensures AreWords(Fields(s))
  {
    SplitShape(s, ' ');
    var pieces := Split(s, ' ');
    var r := NonEmpty(pieces);
    forall k | 0 <= k < |r|
      ensures forall j :: 0 <= j < |r[k]| ==> !IsDelimiter(r[k][j])
    {
      var i :| 0 <= i < |pieces| && r[k] == pieces[i];
      forall j | 0 <= j < |r[k]|
        ensures !IsDelimiter(r[k][j])
      {
        assert pieces[i][j] != ' ' && pieces[i][j] in s;
      }
    }
  }

  /** KebabCase().ToLower(): the words of the name, lower-cased and joined by '-'. */
  function KebabLower(name: string): string {
    ToLower(Join(Fields(Blank(SplitCamel(name))), '-'))
  }

  /** Words joined by single hyphens: no other delimiter, no '-' at either end, never two in a row. */
  predicate HyphenJoined(r: string) {
    (forall j :: 0 <= j < |r| ==> r[j] == '-' || !IsDelimiter(r[j]))
    && (r == [] || (r[0] != '-' && r[|r| - 1] != '-'))
    && (forall j :: 0 <= j < |r| - 1 ==> !(r[j] == '-' && r[j + 1] == '-'))
  }

  /** A kebab-case name: hyphen-joined words without an upper-case letter. */
  predicate IsKebab(r: string) {
    HyphenJoined(r) && forall j :: 0 <= j < |r| ==> !IsUpper(r[j])
  }

  lemma {:induction false} JoinWords(words: seq<string>)
    requires AreWords(words)
    ensures HyphenJoined(Join(words, '-'))
  {
    if |words| > 1 {
      assert AreWords(words[1..]) by {
        assert forall k :: 0 <= k < |words[1..]| ==> words[1..][k] == words[k + 1];
      }
      JoinWords(words[1..]);
      var w := words[0];
      var tail := Join(words[1..], '-');
      var r := Join(words, '-');
      assert r == w + ['-'] + tail;
      assert forall j :: 0 <= j < |w| ==> r[j] == w[j];
      assert r[|w|] == '-';
      assert forall j :: |w| < j < |r| ==> r[j] == tail[j - |w| - 1];
    }
  }

  /** After blanking, the fields are delimiter-free words. */
  lemma BlankedWords(s: string)
    ensures AreWords(Fields(Blank(s)))
  {
    var b := Blank(s);
    BlankSpaces(s);
    forall i | 0 <= i < |b|
      ensures b[i] == ' ' || !IsDelimiter(b[i])
    {
    }
    FieldsAreWords(b);
  }

  /** Lower-casing keeps the hyphen-joined shape and removes every upper-case letter. */
  lemma LowerKebab(s: string)
    requires HyphenJoined(s)
    ensures IsKebab(ToLower(s))
  {
    var r := ToLower(s);
    forall j | 0 <= j < |r|
      ensures r[j] == '-' <==> s[j] == '-'
      ensures r[j] == '-' || !IsDelimiter(r[j])
      ensures !IsUpper(r[j])
    {
      assert r[j] == LowerChar(s[j]);
    }
  }

  /** Whatever the Name tag looked like, its kebab-cased form is kebab-shaped. */
  lemma KebabLowerShape(name: string)
    ensures IsKebab(KebabLower(name))
  {
    var words := Fields(Blank(SplitCamel(name)));
    BlankedWords(SplitCamel(name));
    JoinWords(words);
    LowerKebab(Join(words, '-'));
  }

  /** Text whose only delimiters are spaces is left as it is by blanking. */
  lemma BlankKeeps(s: string)
    requires forall j :: 0 <= j < |s| ==> s[j] == ' ' || !IsDelimiter(s[j])
    ensures Blank(s) == s
  {
    BlankSpaces(s);
  }

  /** Text with no lower-case letter before an upper-case one has no hump to split. */
  lemma {:induction false} CamelKeeps(s: string)
    requires forall j :: 0 <= j < |s| - 1 ==> !(IsLower(s[j]) && IsUpper(s[j + 1]))
    ensures SplitCamel(s) == s
    decreases |s|
  {
    if |s| >= 2 {
      CamelKeeps(s[1..]);
    }
  }

  // The Name tag "MyEc2 123" of the resolution tests, taken through each stage. Each
  // stage takes its text as a parameter so that the literal is not unfolded eagerly.

  /** One step of SplitCamel, whether or not a space is inserted before the next letter. */
  lemma CamelStep(s: string)
    requires |s| >= 2
    ensures IsLower(s[0]) && IsUpper(s[1]) ==> SplitCamel(s) == [s[0], ' '] + SplitCamel(s[1..])
    ensures !(IsLower(s[0]) && IsUpper(s[1])) ==> SplitCamel(s) == [s[0]] + SplitCamel(s[1..])
  {
  }

  lemma CamelExample(s: string)
    requires s == "MyEc2 123"
    ensures SplitCamel(s) == "My Ec2 123"
  {
    var u := s[1..];
    var t := u[1..];
    assert u == "yEc2 123" && t == "Ec2 123";
    forall j | 0 <= j < |t| - 1
      ensures !(IsLower(t[j]) && IsUpper(t[j + 1]))
    {
    }
    CamelKeeps(t);
    CamelStep(u);
    CamelStep(s);
  }

  lemma BlankExample(s: string)
    requires s == "My Ec2 123"
    ensures Blank(s) == s
  {
    forall j | 0 <= j < |s|
      ensures s[j] == ' ' || !IsDelimiter(s[j])
    {
    }
    BlankKeeps(s);
  }

  lemma SplitExample(s: string)
    requires s == "My Ec2 123"
    ensures Split(s, ' ') == ["My", "Ec2", "123"]
  {
    assert s == "My" + [' '] + ("Ec2" + [' '] + "123");
    SplitAt("My", "Ec2" + [' '] + "123", ' ');
    SplitAt("Ec2", "123", ' ');
    SplitNoSep("123", ' ');
  }

  lemma FieldsExample(s: string)
    requires s == "My Ec2 123"
    ensures Fields(s) == ["My", "Ec2", "123"]
  {
    SplitExample(s);
    var parts: seq<string> := ["My", "Ec2", "123"];
    assert parts[1..][1..][1..] == [];
    assert NonEmpty(parts[1..][1..]) == ["123"];
    assert NonEmpty(parts[1..]) == ["Ec2", "123"];
  }

  lemma LowerExample(s: string)
    requires s == "My-Ec2-123"
    ensures ToLower(s) == "my-ec2-123"
  {
  }

  lemma JoinExample(words: seq<string>)
    requires words == ["My", "Ec2", "123"]
    ensures ToLower(Join(words, '-')) == "my-ec2-123"
  {
    var tail := words[1..];
    assert Join(tail[1..], '-') == "123";
    assert Join(tail, '-') == "Ec2" + ['-'] + "123";
    assert Join(words, '-') == "My" + ['-'] + ("Ec2" + ['-'] + "123");
    LowerExample(Join(words, '-'));
  }

  /** "MyEc2 123" becomes "my-ec2-123". */
  lemma KebabExample()
    ensures KebabLower("MyEc2 123") == "my-ec2-123"
  {
    CamelExample("MyEc2 123");
    BlankExample("My Ec2 123");
    FieldsExample("My Ec2 123");
    JoinExample(["My", "Ec2", "123"]);
  }

  // The Name tag "my-ec2" of the resolution table, already in kebab case.

  lemma KeptCamel(s: string)
    requires s == "my-ec2"
    ensures SplitCamel(s) == s
  {
    forall j | 0 <= j < |s| - 1
      ensures !(IsLower(s[j]) && IsUpper(s[j + 1]))
    {
    }
    CamelKeeps(s);
  }

  lemma KeptBlank(s: string)
    requires s == "my-ec2"
    ensures Blank(s) == "my ec2"
  {
    BlankSpaces(s);
    assert Blank(s) == "my ec2";
  }

  lemma KeptFields(s: string)
    requires s == "my ec2"
    ensures Fields(s) == ["my", "ec2"]
  {
    assert s == "my" + [' '] + "ec2";
    SplitAt("my", "ec2", ' ');
    SplitNoSep("ec2", ' ');
    var parts: seq<string> := ["my", "ec2"];
    assert parts[1..][1..] == [];
    assert NonEmpty(parts[1..]) == ["ec2"];
  }

  lemma KeptLower(s: string)
    requires s == "my-ec2"
    ensures ToLower(s) == s
  {
  }

  lemma KeptJoin(words: seq<string>)
    requires words == ["my", "ec2"]
    ensures ToLower(Join(words, '-')) == "my-ec2"
  {
    assert Join(words[1..], '-') == "ec2";
    assert Join(words, '-') == "my" + ['-'] + "ec2";
    KeptLower(Join(words, '-'));
  }

  /** A name already in kebab case, "my-ec2", is kept as it is. */
  lemma KebabKeptExample()
    ensures KebabLower("my-ec2") == "my-ec2"
  {
    KeptCamel("my-ec2");
    KeptBlank("my-ec2");
    KeptFields("my ec2");
    KeptJoin(["my", "ec2"]);
  }
}
