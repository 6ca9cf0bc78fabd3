/** The part of Python's `str.format_map` that a style's prompt template is
    expanded with: literal text, the escapes `{{` and `}}`, and named fields
    `{name}`. The mapping is a `defaultdict(str, p=prompt)`, so the field `p`
    becomes the user's prompt and every other named field the empty string. */
module FormatMap {
  import opened Exceptions

  /** A parsed template: one literal character, or a named field. */
  datatype Piece = Char(c: char) | Field(name: string)

  type Template = seq<Piece>

  datatype ParseResult = Parsed(template: Template) | Failed(reason: FormatError)

  /** Characters that may appear in a field name of the modelled subset.
      The others open a conversion, a format spec, an attribute, an index or
      a nested field, or close the field. A `]` with no `[` before it is an
      ordinary character of the name in Python. */
  predicate IsNameChar(c: char) {
    c != '{' && c != '}' && c != '[' && c != '.' && c != '!' && c != ':'
  }

  /** An empty or all-digit field name is a positional index in Python. */
  predicate IsPositional(name: string) {
    forall k :: 0 <= k < |name| ==> '0' <= name[k] <= '9'
  }

  predicate ValidName(name: string) {
    !IsPositional(name) && forall k :: 0 <= k < |name| ==> IsNameChar(name[k])
  }

  predicate ValidTemplate(t: Template) {
    forall k :: 0 <= k < |t| ==> t[k].Field? ==> ValidName(t[k].name)
  }

  /** The end of the run of name characters that starts at j. */
  function ScanName(s: string, j: nat): (e: nat)
    requires j <= |s|
    ensures j <= e <= |s|
    ensures forall k :: j <= k < e ==> IsNameChar(s[k])
    ensures e < |s| ==> !IsNameChar(s[e])
    decreases |s| - j
  {
    if j == |s| || !IsNameChar(s[j]) then j else ScanName(s, j + 1)
  }

  function Prepend(p: Piece, r: ParseResult): ParseResult {
    match r
    case Parsed(t) => Parsed([p] + t)
    case Failed(_) => r
  }

  /** Splits a format string into pieces, left to right, failing where
      Python's formatter raises (or where the string leaves the subset). */
  function Parse(s: string): ParseResult
    decreases |s|
  {
    if s == [] then Parsed([])
    else if s[0] == '{' then
      if |s| == 1 then Failed(SingleOpenBrace)
      else if s[1] == '{' then Prepend(Char('{'), Parse(s[2..]))
      else
        var e := ScanName(s, 1);
        if e == |s| then Failed(UnclosedField)
        else if s[e] != '}' then Failed(OutsideSubset)
        else if IsPositional(s[1..e]) then Failed(PositionalField)
        else Prepend(Field(s[1..e]), Parse(s[e + 1..]))
    else if s[0] == '}' then
      if |s| > 1 && s[1] == '}' then Prepend(Char('}'), Parse(s[2..]))
      else Failed(SingleCloseBrace)
    else Prepend(Char(s[0]), Parse(s[1..]))
  }

  /** The text a piece is written as in a format string. */
  function UnparsePiece(p: Piece): string {
    match p
    case Char(c) => if c == '{' then "{{" else if c == '}' then "}}" else [c]
    case Field(name) => "{" + name + "}"
  }

  function Unparse(t: Template): string {
    if t == [] then "" else UnparsePiece(t[0]) + Unparse(t[1..])
  }

  /** The value of one piece under `defaultdict(str, p=prompt)`. */
  function PieceValue(p: Piece, prompt: string): string {
    match p
    case Char(c) => [c]
    case Field(name) => if name == "p" then prompt else ""
  }

  /** The expansion of a template: the reference meaning of format_map. */
  function Substitute(t: Template, prompt: string): string {
    if t == [] then "" else PieceValue(t[0], prompt) + Substitute(t[1..], prompt)
  }

  /** `template.format_map(defaultdict(str, p=prompt))`. */
  function FormatMapPrompt(template: string, prompt: string): (r: Result<string>)
    ensures r.Err? ==> r.error.FormatFailure?
    ensures r.Err? <==> Parse(template).Failed?
  {
    match Parse(template)
    case Parsed(t) => Ok(Substitute(t, prompt))
    case Failed(e) => Err(FormatFailure(e))
  }

  /** Parsing one written-out piece in front of any text. */
  lemma ParsePiece(p: Piece, rest: string)
    requires p.Field? ==> ValidName(p.name)
    ensures Parse(UnparsePiece(p) + rest) == Prepend(p, Parse(rest))
  {
    var s := UnparsePiece(p) + rest;
    match p
    case Char(c) =>
      if c == '{' || c == '}' {
        assert s[2..] == rest;
      } else {
        assert s[1..] == rest;
      }
    case Field(name) =>
      ParseField(name, rest);
  }

  lemma ParseField(name: string, rest: string)
    requires ValidName(name)
    ensures Parse("{" + name + "}" + rest) == Prepend(Field(name), Parse(rest))
  {
    var s := "{" + name + "}" + rest;
    var e := 1 + |name|;
    assert s[e] == '}';
    assert s[1..e] == name;
    forall k | 1 <= k < e ensures IsNameChar(s[k]) {
      assert s[k] == name[k - 1];
    }
    assert ScanName(s, 1) == e;
    assert s[e + 1..] == rest;
  }

  lemma ValidTemplateTail(t: Template)
    requires t != [] && ValidTemplate(t)
    ensures t[0].Field? ==> ValidName(t[0].name)
    ensures ValidTemplate(t[1..])
  {
    var rest := t[1..];
    forall k | 0 <= k < |rest| && rest[k].Field? ensures ValidName(rest[k].name) {
      assert rest[k] == t[k + 1];
    }
  }

  /** Writing a template out and parsing it back gives the same template. */
  lemma {:induction false} ParseUnparse(t: Template)
    requires ValidTemplate(t)
    ensures Parse(Unparse(t)) == Parsed(t)
    decreases |t|
  {
    if t != [] {
      var rest := t[1..];
      ValidTemplateTail(t);
      ParseUnparse(rest);
      var u := Unparse(rest);
      assert Unparse(t) == UnparsePiece(t[0]) + u;
      ParsePiece(t[0], u);
      assert [t[0]] + rest == t;
    }
  }

  /** Parsing a string and writing the pieces out gives the string back, and
      every field the parser accepts is a valid name. */
  lemma {:induction false} UnparseParse(s: string)
    requires Parse(s).Parsed?
    ensures ValidTemplate(Parse(s).template)
    ensures Unparse(Parse(s).template) == s
    decreases |s|
  {
    if s != [] {
      var p, rest := ParseFront(s);
      UnparseParse(rest);
      var tr := Parse(rest).template;
      var t := [p] + tr;
      assert t[1..] == tr;
      assert ValidTemplate(t) by {
        forall k | 0 <= k < |t| && t[k].Field? ensures ValidName(t[k].name) {
          if k > 0 { assert t[k] == tr[k - 1]; }
        }
      }
    }
  }

  /** The first piece the parser takes off a string, and the rest. */
  lemma ParseFront(s: string) returns (p: Piece, rest: string)
    requires s != [] && Parse(s).Parsed?
    ensures |rest| < |s| && s == UnparsePiece(p) + rest
    ensures p.Field? ==> ValidName(p.name)
    ensures Parse(rest).Parsed? && Parse(s).template == [p] + Parse(rest).template
  {
    if s[0] == '{' && s[1] == '{' {
      rest, p := s[2..], Char('{');
    } else if s[0] == '{' {
      var e := ScanName(s, 1);
      rest, p := s[e + 1..], Field(s[1..e]);
      forall k | 0 <= k < |p.name| ensures IsNameChar(p.name[k]) {
        assert p.name[k] == s[k + 1];
      }
      assert UnparsePiece(p) == s[..e + 1];
    } else if s[0] == '}' {
      rest, p := s[2..], Char('}');
    } else {
      rest, p := s[1..], Char(s[0]);
    }
  }

  /** A template written out expands to the reference substitution: `{p}`
      becomes the prompt and every other named field the empty string. */
  lemma FormatMapOfUnparse(t: Template, prompt: string)
    requires ValidTemplate(t)
    ensures FormatMapPrompt(Unparse(t), prompt) == Ok(Substitute(t, prompt))
  {
    ParseUnparse(t);
  }

  /** A `]` with no `[` before it belongs to the field's name: `{a]}` is a
      named field, expanded to the empty string. */
  lemma ExampleClosingBracketInName(prompt: string)
    ensures FormatMapPrompt("{a]}", prompt) == Ok("")
  {
    var s := "{a]}";
    assert ScanName(s, 1) == 3;
    assert s[1..3] == "a]" && !IsPositional("a]");
    assert s[4..] == "";
    assert Parse(s) == Parsed([Field("a]")]);
    assert [Field("a]")][1..] == [];
    assert Substitute([Field("a]")], prompt) == "";
  }

  /** Text without braces is its own expansion. */
  lemma {:induction false} PlainTextUnchanged(s: string, prompt: string)
    requires forall k :: 0 <= k < |s| ==> s[k] != '{' && s[k] != '}'
    ensures FormatMapPrompt(s, prompt) == Ok(s)
    decreases |s|
  {
    if s != [] {
      PlainTextUnchanged(s[1..], prompt);
      var t := Parse(s[1..]).template;
      assert Parse(s) == Parsed([Char(s[0])] + t);
      assert Substitute([Char(s[0])] + t, prompt) == [s[0]] + Substitute(t, prompt) by {
        assert ([Char(s[0])] + t)[1..] == t;
      }
      assert s == [s[0]] + s[1..];
    }
  }
}
