/**
 * Prompt templates: keyword substitution in the style of `str.format`,
 * lookup by category, key and subkey in the loaded TOML tables, and the
 * assembly of the rapper's system message. The TOML files themselves are
 * a parameter: the parsed configuration.
 */
module PromptService {
  import opened Wrappers
  import opened Strings

  /** Why `str.format(**kwargs)` fails. */
  datatype FormatError =
    | MissingKey(name: string)     // KeyError: a named field with no such keyword
    | PositionalField              // IndexError: `{}` or `{0}` with keyword arguments only
    | SingleOpeningBrace           // ValueError: "Single '{' encountered in format string"
    | UnclosedField                // ValueError: "expected '}' before end of string"
    | SingleClosingBrace           // ValueError: "Single '}' encountered in format string"
    | BraceInFieldName             // ValueError: "unexpected '{' in field name"
    | UnmatchedBraceInSpec         // ValueError: "unmatched '{' in format spec"
    | ConversionAtEnd              // ValueError: "end of string while looking for conversion specifier"
    | ColonAfterConversion         // ValueError: "expected ':' after conversion specifier"
    | UnknownConversion(c: char)   // ValueError: "Unknown conversion specifier <c>"
    | Unmodelled                   // `!r`, `!a`, a format spec, or `.attr` / `[index]` after the key

  /** A field name `str.format` reads as a positional index. */
  predicate Positional(name: string) {
    forall i :: 0 <= i < |name| ==> '0' <= name[i] <= '9'
  }

  /** A field written `{name}` that is looked up among the keyword arguments as it stands. */
  predicate KeywordName(name: string) {
    !Positional(name) && forall i :: 0 <= i < |name| ==> name[i] !in "{}[]:!."
  }

  function Prepend(p: string, r: Result<string, FormatError>): (q: Result<string, FormatError>)
    ensures q.Ok? <==> r.Ok?
    ensures r.Ok? ==> q.value == p + r.value
    ensures r.Err? ==> q == r
  {
    if r.Ok? then Ok(p + r.value) else r
  }

  function After(o: Option<nat>): (r: Option<nat>)
    ensures r.Some? <==> o.Some?
    ensures r.Some? ==> r.value == o.value + 1
  {
    if o.Some? then Some(o.value + 1) else None
  }

  /**
   * The `}` that closes a format spec whose text is `s`, with `open` braces
   * still open: every `{` opens one more, every `}` closes one.
   */
  function Closing(s: string, open: nat): (r: Option<nat>)
    requires open > 0
    ensures r.Some? ==> r.value < |s| && s[r.value] == '}'
    decreases |s|
  {
    if |s| == 0 then None
    else if s[0] == '{' then After(Closing(s[1..], open + 1))
    else if s[0] == '}' then (if open == 1 then Some(0) else After(Closing(s[1..], open - 1)))
    else After(Closing(s[1..], open))
  }

  /** The first `]` at or after `i`, or the end. */
  function BracketEnd(f: string, i: nat): (r: nat)
    requires i <= |f|
    ensures i <= r <= |f|
    ensures r < |f| ==> f[r] == ']'
    ensures forall k :: i <= k < r ==> f[k] != ']'
    decreases |f| - i
  {
    if i == |f| || f[i] == ']' then i else BracketEnd(f, i + 1)
  }

  /**
   * Where a field name that starts at `i` of the template `f` ends: at the
   * first `:`, `!` or `}` outside `[...]`, or at the end; a `{` is an error.
   */
  function NameEnd(f: string, i: nat): (r: Result<nat, FormatError>)
    requires i <= |f|
    ensures r.Ok? ==> i <= r.value <= |f| && (r.value < |f| ==> f[r.value] in ":!}")
    ensures r.Err? ==> r.error == BraceInFieldName
    decreases |f| - i
  {
    if i == |f| then Ok(i)
    else if f[i] == '{' then Err(BraceInFieldName)
    else if f[i] in ":!}" then Ok(i)
    else if f[i] == '[' then NameEnd(f, BracketEnd(f, i + 1))
    else NameEnd(f, i + 1)
  }

  /** A replacement field split into its name, its conversion and its format spec. */
  datatype Field = Field(name: string, conversion: Option<char>, spec: string)

  /** A replacement field read from the front of the template, and how many characters it took. */
  datatype Markup = Markup(field: Field, width: nat)

  /** The format spec that starts at `s` of `t`, read up to the `}` that balances the field's `{`. */
  function SpecField(t: string, name: string, conversion: Option<char>, s: nat): (r: Result<Markup, FormatError>)
    requires s <= |t|
    ensures r.Ok? ==> s < r.value.width <= |t| && t[r.value.width - 1] == '}'
    ensures r.Err? ==> r.error == UnmatchedBraceInSpec
  {
    match Closing(t[s..], 1)
    case None => Err(UnmatchedBraceInSpec)
    case Some(j) => Ok(Markup(Field(name, conversion, t[s..s + j]), s + j + 1))
  }

  /**
   * The replacement field at the front of `t`, which opens with `{`: the
   * name is read first, then a conversion, then a format spec, whose braces
   * alone are counted.
   */
  function ParseField(t: string): (r: Result<Markup, FormatError>)
    requires |t| > 0
    ensures r.Ok? ==> 1 < r.value.width <= |t| && t[r.value.width - 1] == '}'
  {
    match NameEnd(t, 1)
    case Err(e) => Err(e)
    case Ok(n) =>
      var name := t[1..n];
      if n == |t| then Err(UnclosedField)
      else if t[n] == '}' then Ok(Markup(Field(name, None, ""), n + 1))
      else if t[n] == ':' then SpecField(t, name, None, n + 1)
      else if n + 1 == |t| then Err(ConversionAtEnd)
      else if n + 2 == |t| then Err(UnmatchedBraceInSpec)
      else if t[n + 2] == '}' then Ok(Markup(Field(name, Some(t[n + 1]), ""), n + 3))
      else if t[n + 2] != ':' then Err(ColonAfterConversion)
      else SpecField(t, name, Some(t[n + 1]), n + 3)
  }

  /** The end of the key: the first `.` or `[` of a field name, or its end. */
  function KeyEnd(name: string, i: nat): (r: nat)
    requires i <= |name|
    ensures i <= r <= |name|
    ensures r < |name| ==> name[r] in ".["
    ensures forall k :: i <= k < r ==> name[k] !in ".["
    decreases |name| - i
  {
    if i == |name| || name[i] in ".[" then i else KeyEnd(name, i + 1)
  }

  /**
   * One field's replacement text: the key is looked up first, then the
   * conversion is checked; a plain or `!s` field with no format spec is the
   * keyword argument itself.
   */
  function Render(fd: Field, vars: map<string, string>): Result<string, FormatError>
  {
    var key := fd.name[..KeyEnd(fd.name, 0)];
    if Positional(key) then Err(PositionalField)
    else if key !in vars then Err(MissingKey(key))
    else if |key| < |fd.name| then Err(Unmodelled)
    else if fd.conversion.Some? && fd.conversion.value !in "rsa" then Err(UnknownConversion(fd.conversion.value))
    else if fd.conversion == Some('r') || fd.conversion == Some('a') || fd.spec != "" then Err(Unmodelled)
    else Ok(vars[key])
  }

  /** What one step of the scan produces: output text, and how much of the template it used. */
  datatype Piece = Piece(text: string, width: nat)

  /**
   * The first step of `template.format(**vars)` on a non-empty template:
   * `{{` and `}}` are literal braces, a `{` opens a replacement field, any
   * other character is copied.
   */
  function Token(t: string, vars: map<string, string>): (r: Result<Piece, FormatError>)
    requires |t| > 0
    ensures r.Ok? ==> 0 < r.value.width <= |t|
  {
    if t[0] == '{' then
      if |t| == 1 then Err(SingleOpeningBrace)
      else if t[1] == '{' then Ok(Piece("{", 2))
      else
        match ParseField(t)
        case Err(e) => Err(e)
        case Ok(m) =>
          match Render(m.field, vars)
          case Err(e) => Err(e)
          case Ok(v) => Ok(Piece(v, m.width))
    else if t[0] == '}' then
      if |t| >= 2 && t[1] == '}' then Ok(Piece("}", 2))
      else Err(SingleClosingBrace)
    else Ok(Piece(t[..1], 1))
  }

  /** `template.format(**vars)`, read left to right; the first step that fails decides the error. */
  function Format(t: string, vars: map<string, string>): Result<string, FormatError>
    decreases |t|
  {
    if |t| == 0 then Ok("")
    else
      match Token(t, vars)
      case Err(e) => Err(e)
      case Ok(p) => Prepend(p.text, Format(t[p.width..], vars))
  }

  /** Text without braces is its own result. */
  lemma {:induction false} FormatPlain(t: string, vars: map<string, string>)
    requires '{' !in t && '}' !in t
    ensures Format(t, vars) == Ok(t)
    decreases |t|
  {
    if |t| > 0 {
      FormatPlain(t[1..], vars);
      assert t == t[..1] + t[1..];
    }
  }

  /** A closing brace found in `s` is found the same way in any extension of `s`. */
  lemma {:induction false} ClosingExtend(s: string, b: string, open: nat)
    requires open > 0 && Closing(s, open).Some?
    ensures Closing(s + b, open) == Closing(s, open)
    decreases |s|
  {
    assert (s + b)[0] == s[0];
    if s[0] == '{' {
      assert (s + b)[1..] == s[1..] + b;
      ClosingExtend(s[1..], b, open + 1);
    } else if s[0] == '}' {
      if open > 1 {
        assert (s + b)[1..] == s[1..] + b;
        ClosingExtend(s[1..], b, open - 1);
      }
    } else {
      assert (s + b)[1..] == s[1..] + b;
      ClosingExtend(s[1..], b, open);
    }
  }

  /** A format spec with no brace in it ends right after itself. */
  lemma {:induction false} ClosingPlain(spec: string, b: string)
    requires forall i :: 0 <= i < |spec| ==> spec[i] !in "{}"
    ensures Closing(spec + "}" + b, 1) == Some(|spec|)
    decreases |spec|
  {
    var s := spec + "}" + b;
    if |spec| > 0 {
      assert s[1..] == spec[1..] + "}" + b;
      ClosingPlain(spec[1..], b);
    }
  }

  /** The name scan reads past ordinary characters. */
  lemma {:induction false} NameEndSkips(f: string, i: nat, j: nat)
    requires i <= j <= |f|
    requires forall k :: i <= k < j ==> f[k] !in "{}[]:!"
    ensures NameEnd(f, i) == NameEnd(f, j)
    decreases j - i
  {
    if i < j {
      NameEndSkips(f, i + 1, j);
    }
  }

  /** The key scan reads past characters other than `.` and `[`. */
  lemma {:induction false} KeyEndSkips(name: string, i: nat, j: nat)
    requires i <= j <= |name|
    requires forall k :: i <= k < j ==> name[k] !in ".["
    ensures KeyEnd(name, i) == KeyEnd(name, j)
    decreases j - i
  {
    if i < j {
      KeyEndSkips(name, i + 1, j);
    }
  }

  /** A keyword name is read whole: no conversion, no format spec, no attribute or index. */
  lemma NameEndPlain(name: string, b: string)
    requires forall k :: 0 <= k < |name| ==> name[k] !in "{}[]:!."
    ensures NameEnd("{" + name + "}" + b, 1) == Ok(|name| + 1)
    ensures KeyEnd(name, 0) == |name|
  {
    var t := "{" + name + "}" + b;
    assert forall k :: 1 <= k < |name| + 1 ==> t[k] == name[k - 1];
    NameEndSkips(t, 1, |name| + 1);
    KeyEndSkips(name, 0, |name|);
  }

  /** A field is replaced by its keyword argument and formatting goes on after it. */
  lemma FormatFieldThen(name: string, b: string, vars: map<string, string>)
    requires KeywordName(name)
    ensures name in vars ==> Format("{" + name + "}" + b, vars) == Prepend(vars[name], Format(b, vars))
    ensures name !in vars ==> Format("{" + name + "}" + b, vars) == Err(MissingKey(name))
  {
    var t := "{" + name + "}" + b;
    NameEndPlain(name, b);
    assert t[1..1 + |name|] == name;
    assert t[|name| + 1] == '}';
    assert ParseField(t) == Ok(Markup(Field(name, None, ""), |name| + 2));
    assert name[..|name|] == name;
    assert t[|name| + 2..] == b;
    assert t[1] == name[0];
  }

  /** A field is replaced by its keyword argument. */
  lemma FormatField(name: string, vars: map<string, string>)
    requires KeywordName(name) && name in vars
    ensures Format("{" + name + "}", vars) == Ok(vars[name])
  {
    FormatFieldThen(name, "", vars);
    assert "{" + name + "}" + "" == "{" + name + "}";
    assert vars[name] + "" == vars[name];
  }

  /** An index `[idx]` after the key is skipped whole, braces included, while the name is read. */
  lemma IndexedNameEnd(name: string, idx: string, b: string)
    requires forall k :: 0 <= k < |name| ==> name[k] !in "{}[]:!."
    requires forall k :: 0 <= k < |idx| ==> idx[k] != ']'
    ensures NameEnd("{" + name + "[" + idx + "]}" + b, 1) == Ok(|name| + |idx| + 3)
  {
    var t := "{" + name + "[" + idx + "]}" + b;
    var close := |name| + |idx| + 2;
    assert forall k :: 1 <= k < |name| + 1 ==> t[k] == name[k - 1];
    NameEndSkips(t, 1, |name| + 1);
    assert forall k :: |name| + 2 <= k < close ==> t[k] == idx[k - |name| - 2];
    assert t[|name| + 1] == '[' && t[close] == ']' && t[close + 1] == '}';
    assert BracketEnd(t, |name| + 2) == close;
    assert NameEnd(t, close) == NameEnd(t, close + 1) == Ok(close + 1);
  }

  /** The field's name runs up to the `}` after the index. */
  lemma IndexedFieldParse(name: string, idx: string, b: string)
    requires forall k :: 0 <= k < |name| ==> name[k] !in "{}[]:!."
    requires forall k :: 0 <= k < |idx| ==> idx[k] != ']'
    ensures ParseField("{" + name + "[" + idx + "]}" + b)
      == Ok(Markup(Field(name + "[" + idx + "]", None, ""), |name| + |idx| + 4))
  {
    var t := "{" + name + "[" + idx + "]}" + b;
    IndexedNameEnd(name, idx, b);
    assert t[|name| + |idx| + 3] == '}';
    assert t[1..|name| + |idx| + 3] == name + "[" + idx + "]";
  }

  /**
   * A field whose key is followed by an index: the key alone is looked up,
   * and the index is not modelled.
   */
  lemma IndexedField(name: string, idx: string, b: string, vars: map<string, string>)
    requires forall k :: 0 <= k < |name| ==> name[k] !in "{}[]:!."
    requires forall k :: 0 <= k < |idx| ==> idx[k] != ']'
    ensures var r := Format("{" + name + "[" + idx + "]}" + b, vars);
      && (Positional(name) ==> r == Err(PositionalField))
      && (!Positional(name) && name !in vars ==> r == Err(MissingKey(name)))
      && (!Positional(name) && name in vars ==> r == Err(Unmodelled))
  {
    var t := "{" + name + "[" + idx + "]}" + b;
    IndexedFieldParse(name, idx, b);
    var fname := name + "[" + idx + "]";
    assert forall k :: 0 <= k < |name| ==> fname[k] == name[k];
    KeyEndSkips(fname, 0, |name|);
    assert fname[..|name|] == name;
    assert t[0] == '{' && t[1] != '{';
  }

  /** An index left open runs to the end of the template, so the field is never closed. */
  lemma UnclosedIndex(name: string, rest: string, vars: map<string, string>)
    requires forall k :: 0 <= k < |name| ==> name[k] !in "{}[]:!"
    requires forall k :: 0 <= k < |rest| ==> rest[k] != ']'
    ensures Format("{" + name + "[" + rest, vars) == Err(UnclosedField)
  {
    var t := "{" + name + "[" + rest;
    assert forall k :: 1 <= k < |name| + 1 ==> t[k] == name[k - 1];
    assert forall k :: |name| + 2 <= k < |t| ==> t[k] == rest[k - |name| - 2];
    assert t[|name| + 1] == '[';
    NameEndSkips(t, 1, |name| + 1);
    assert BracketEnd(t, |name| + 2) == |t|;
    assert NameEnd(t, 1) == Ok(|t|);
    assert t[0] == '{' && t[1] != '{';
  }

  /** A `{` inside a field name, outside an index, is an error whatever follows. */
  lemma BraceInName(name: string, b: string, vars: map<string, string>)
    requires |name| > 0
    requires forall k :: 0 <= k < |name| ==> name[k] !in "{}[]:!"
    ensures Format("{" + name + "{" + b, vars) == Err(BraceInFieldName)
  {
    var t := "{" + name + "{" + b;
    assert forall k :: 1 <= k < |name| + 1 ==> t[k] == name[k - 1];
    assert t[|name| + 1] == '{';
    NameEndSkips(t, 1, |name| + 1);
    assert t[0] == '{' && t[1] != '{';
  }

  /** A worked case of an index holding a brace after an empty key, which is positional. */
  lemma PositionalIndexExample(vars: map<string, string>)
    ensures Format("{[{]}", vars) == Err(PositionalField)
  {
    IndexedField("", "{", "", vars);
    assert "{" + "" + "[" + "{" + "]}" + "" == "{[{]}";
  }

  /** A worked case of an index holding a brace after a missing key. */
  lemma MissingIndexExample(vars: map<string, string>)
    requires "a" !in vars
    ensures FormatTemplate("{a[{]}", vars) == Err(MissingVariable("a"))
  {
    IndexedField("a", "{", "", vars);
    assert "{" + "a" + "[" + "{" + "]}" + "" == "{a[{]}";
  }

  /** Worked cases of an index left open. */
  lemma UnclosedIndexExamples(vars: map<string, string>)
    ensures Format("{[}", vars) == Err(UnclosedField)
    ensures Format("{a[}", vars) == Err(UnclosedField)
  {
    UnclosedIndex("", "}", vars);
    assert "{" + "" + "[" + "}" == "{[}";
    UnclosedIndex("a", "}", vars);
    assert "{" + "a" + "[" + "}" == "{a[}";
  }

  /** A worked case of a brace in the field name. */
  lemma BraceInNameExample(vars: map<string, string>)
    ensures Format("{a{b}", vars) == Err(BraceInFieldName)
  {
    BraceInName("a", "b}", vars);
    assert "{" + "a" + "{" + "b}" == "{a{b}";
  }

  /** A scan that reaches a verdict on `a` before its end reaches the same one on any extension of `a`. */
  lemma {:induction false} BracketEndExtend(a: string, b: string, i: nat)
    requires i <= |a| && BracketEnd(a, i) < |a|
    ensures BracketEnd(a + b, i) == BracketEnd(a, i)
    decreases |a| - i
  {
    assert (a + b)[i] == a[i];
    if a[i] != ']' {
      BracketEndExtend(a, b, i + 1);
    }
  }

  /** A field name that ends inside `a` ends at the same place in any extension of `a`. */
  lemma {:induction false} NameEndExtend(a: string, b: string, i: nat)
    requires i <= |a| && NameEnd(a, i).Ok? && NameEnd(a, i).value < |a|
    ensures NameEnd(a + b, i) == NameEnd(a, i)
    decreases |a| - i
  {
    assert (a + b)[i] == a[i];
    if a[i] == '[' {
      BracketEndExtend(a, b, i + 1);
      NameEndExtend(a, b, BracketEnd(a, i + 1));
    } else if a[i] != '{' && a[i] !in ":!}" {
      NameEndExtend(a, b, i + 1);
    }
  }

  /** A format spec closed inside `a` is read the same way in any extension of `a`. */
  lemma SpecFieldExtend(a: string, b: string, name: string, conversion: Option<char>, s: nat)
    requires s <= |a| && SpecField(a, name, conversion, s).Ok?
    ensures SpecField(a + b, name, conversion, s) == SpecField(a, name, conversion, s)
  {
    var j := Closing(a[s..], 1).value;
    assert (a + b)[s..] == a[s..] + b;
    ClosingExtend(a[s..], b, 1);
    assert (a + b)[s..s + j] == a[s..s + j];
  }

  /** A field read from `a` is read the same way from any extension of `a`. */
  lemma ParseFieldExtend(a: string, b: string)
    requires |a| > 0 && ParseField(a).Ok?
    ensures ParseField(a + b) == ParseField(a)
  {
    var n := NameEnd(a, 1).value;
    NameEndExtend(a, b, 1);
    var t := a + b;
    assert t[1..n] == a[1..n];
    assert t[n] == a[n];
    if a[n] == ':' {
      SpecFieldExtend(a, b, a[1..n], None, n + 1);
    } else if a[n] == '!' {
      assert t[n + 1] == a[n + 1] && t[n + 2] == a[n + 2];
      if a[n + 2] == ':' {
        SpecFieldExtend(a, b, a[1..n], Some(a[n + 1]), n + 3);
      }
    }
  }

  /** A step that succeeds on `a` is taken the same way on any extension of `a`. */
  lemma {:induction false} TokenExtend(a: string, b: string, vars: map<string, string>)
    requires |a| > 0 && Token(a, vars).Ok?
    ensures Token(a + b, vars) == Token(a, vars)
  {
    var t := a + b;
    assert t[0] == a[0];
    if a[0] == '{' && a[1] != '{' {
      assert t[1] == a[1];
      ParseFieldExtend(a, b);
    } else if a[0] != '}' && a[0] != '{' {
      assert t[..1] == a[..1];
    } else {
      assert t[..2] == a[..2];
    }
  }

  /** Once a prefix formats, what follows formats on its own and is appended. */
  lemma {:induction false} FormatConcat(a: string, b: string, vars: map<string, string>)
    requires Format(a, vars).Ok?
    ensures Format(a + b, vars) == Prepend(Format(a, vars).value, Format(b, vars))
    decreases |a|
  {
    if |a| == 0 {
      assert a + b == b;
      if Format(b, vars).Ok? {
        assert "" + Format(b, vars).value == Format(b, vars).value;
      }
    } else {
      var p := Token(a, vars).value;
      var rest := a[p.width..];
      TokenExtend(a, b, vars);
      assert (a + b)[p.width..] == rest + b;
      assert Format(a + b, vars) == Prepend(p.text, Format(rest + b, vars));
      assert Format(a, vars) == Prepend(p.text, Format(rest, vars));
      FormatConcat(rest, b, vars);
      PrependTwice(p.text, Format(rest, vars).value, Format(b, vars));
    }
  }

  lemma PrependTwice(x: string, y: string, r: Result<string, FormatError>)
    ensures Prepend(x, Prepend(y, r)) == Prepend(x + y, r)
  {
    if r.Ok? {
      assert x + (y + r.value) == (x + y) + r.value;
    }
  }

  /**
   * A field with no keyword argument fails the whole template and the error
   * names it, provided everything before it formats.
   */
  lemma {:induction false} FormatMissing(a: string, name: string, b: string, vars: map<string, string>)
    requires Format(a, vars).Ok?
    requires KeywordName(name) && name !in vars
    ensures Format(a + ("{" + name + "}" + b), vars) == Err(MissingKey(name))
  {
    FormatConcat(a, "{" + name + "}" + b, vars);
    FormatFieldThen(name, b, vars);
  }

  /** `PromptTemplate.format`'s errors: a KeyError becomes the missing-variable error. */
  datatype PromptError =
    | MissingVariable(name: string)   // ValueError "Missing required variable '<name>' for prompt template"
    | FormatFailed(cause: FormatError) // the other `str.format` errors, raised as they are
    | UnknownCategory(category: string)
    | PromptNotFound(path: string)
    | InvalidTemplateFormat(path: string)
    | NotSubscriptable                // TypeError: indexing a string, number or array by a key
    | TemplateNotString               // pydantic rejects a non-string `template`

  /** `PromptTemplate.format` */
  function FormatTemplate(template: string, vars: map<string, string>): (r: Result<string, PromptError>)
    ensures r.Ok? <==> Format(template, vars).Ok?
    ensures r.Ok? ==> r.value == Format(template, vars).value
    ensures Format(template, vars).Err? && Format(template, vars).error.MissingKey? ==>
      r == Err(MissingVariable(Format(template, vars).error.name))
  {
    match Format(template, vars)
    case Ok(s) => Ok(s)
    case Err(MissingKey(name)) => Err(MissingVariable(name))
    case Err(e) => Err(FormatFailed(e))
  }

  /** A value read from a TOML file: a string, a table, or anything else (numbers, arrays, ...). */
  datatype TomlValue = TStr(s: string) | TTable(entries: map<string, TomlValue>) | TOther

  /** `PromptConfig`: one table per prompt file. */
  datatype PromptConfig = PromptConfig(
    battlePrompts: map<string, TomlValue>,
    rapperPrompts: map<string, TomlValue>,
    evaluationPrompts: map<string, TomlValue>,
    systemPrompts: map<string, TomlValue>)

  function CategoryData(config: PromptConfig, category: string): Option<map<string, TomlValue>>
  {
    if category == "battle" then Some(config.battlePrompts)
    else if category == "rapper" then Some(config.rapperPrompts)
    else if category == "evaluation" then Some(config.evaluationPrompts)
    else if category == "system" then Some(config.systemPrompts)
    else None
  }

  /** `f"{category}.{key}.{subkey or ''}"` */
  function PromptPath(category: string, key: string, subkey: Option<string>): string {
    category + "." + key + "." + subkey.GetOr("")
  }

  /** `category_data[key][subkey]`, or `category_data[key]` when the subkey is absent or empty. */
  function Select(data: map<string, TomlValue>, key: string, subkey: Option<string>, path: string): Result<TomlValue, PromptError>
  {
    if key !in data then Err(PromptNotFound(path))
    else if subkey.None? || subkey.value == "" then Ok(data[key])
    else match data[key]
      case TTable(entries) => if subkey.value in entries then Ok(entries[subkey.value]) else Err(PromptNotFound(path))
      case _ => Err(NotSubscriptable)
  }

  /** `get_prompt`: the template text of the selected entry. */
  function GetPrompt(config: PromptConfig, category: string, key: string, subkey: Option<string>): (r: Result<string, PromptError>)
    ensures CategoryData(config, category).None? ==> r == Err(UnknownCategory(category))
  {
    match CategoryData(config, category)
    case None => Err(UnknownCategory(category))
    case Some(data) =>
      var path := PromptPath(category, key, subkey);
      match Select(data, key, subkey, path)
      case Err(e) => Err(e)
      case Ok(TStr(s)) => Ok(s)
      case Ok(TTable(entries)) =>
        if "template" in entries then
          if entries["template"].TStr? then Ok(entries["template"].s) else Err(TemplateNotString)
        else Err(InvalidTemplateFormat(path))
      case Ok(TOther) => Err(InvalidTemplateFormat(path))
  }

  /** Only the four prompt files are categories. */
  lemma GetPromptCategories(config: PromptConfig, category: string, key: string, subkey: Option<string>)
    ensures GetPrompt(config, category, key, subkey) != Err(UnknownCategory(category)) <==>
      category in {"battle", "rapper", "evaluation", "system"}
  {
  }

  /** A missing key, or a missing subkey of a table, is "Prompt not found" under the dotted path. */
  lemma GetPromptNotFound(config: PromptConfig, category: string, key: string, subkey: Option<string>)
    requires CategoryData(config, category).Some?
    requires var data := CategoryData(config, category).value;
      key !in data
      || (subkey.Some? && subkey.value != "" && data[key].TTable? && subkey.value !in data[key].entries)
    ensures GetPrompt(config, category, key, subkey) == Err(PromptNotFound(PromptPath(category, key, subkey)))
  {
  }

  /**
   * The accepted shapes under a subkey: a string is the template itself, a
   * table gives its `template` string, any other value is an invalid format;
   * a key whose value is not a table cannot take a subkey.
   */
  lemma GetPromptShapes(config: PromptConfig, category: string, key: string, sub: string)
    requires CategoryData(config, category).Some? && key in CategoryData(config, category).value
    requires sub != ""
    ensures var v := CategoryData(config, category).value[key];
      var r := GetPrompt(config, category, key, Some(sub));
      var path := PromptPath(category, key, Some(sub));
      && (!v.TTable? ==> r == Err(NotSubscriptable))
      && (v.TTable? && sub in v.entries && v.entries[sub].TStr? ==> r == Ok(v.entries[sub].s))
      && (v.TTable? && sub in v.entries && v.entries[sub].TOther? ==> r == Err(InvalidTemplateFormat(path)))
      && (v.TTable? && sub in v.entries && v.entries[sub].TTable? ==>
            var inner := v.entries[sub].entries;
            && ("template" !in inner ==> r == Err(InvalidTemplateFormat(path)))
            && ("template" in inner && inner["template"].TStr? ==> r == Ok(inner["template"].s))
            && ("template" in inner && !inner["template"].TStr? ==> r == Err(TemplateNotString)))
  {
  }

  /** An empty subkey is ignored, as `if subkey:` is false for it. */
  lemma GetPromptEmptySubkey(config: PromptConfig, category: string, key: string)
    ensures GetPrompt(config, category, key, Some("")) == GetPrompt(config, category, key, None)
  {
  }

  /** One entry of `previous_verses`. */
  datatype PreviousVerse = PreviousVerse(rapperName: string, content: string)

  /** The arguments of `get_rapper_system_message`; the round number is already rendered. */
  datatype MessageArgs = MessageArgs(
    rapperName: string, opponentName: string, style: string, roundNumber: int,
    hasBiographicalInfo: bool, biographicalInfo: Option<string>, opponentBiographicalInfo: Option<string>,
    isFirstRound: bool, previousVerses: Option<seq<PreviousVerse>>)

  function Get(config: PromptConfig, category: string, key: string, sub: string): Result<string, PromptError> {
    GetPrompt(config, category, key, Some(sub))
  }

  /** `has_biographical_info and biographical_info and opponent_biographical_info` */
  predicate WantsBio(a: MessageArgs) {
    && a.hasBiographicalInfo
    && a.biographicalInfo.Some? && a.biographicalInfo.value != ""
    && a.opponentBiographicalInfo.Some? && a.opponentBiographicalInfo.value != ""
  }

  /** `if previous_verses:` */
  predicate HasVerses(a: MessageArgs) {
    a.previousVerses.Some? && |a.previousVerses.value| > 0
  }

  function BaseSection(config: PromptConfig, a: MessageArgs): Result<string, PromptError> {
    var t :- Get(config, "rapper", "system_message", "base_template");
    FormatTemplate(t, map["rapper_name" := a.rapperName, "opponent_name" := a.opponentName,
                          "style" := a.style, "round_number" := IntToString(a.roundNumber)])
  }

  /** The biographical section, the first-round research section, or nothing. */
  function MiddleSection(config: PromptConfig, a: MessageArgs): Result<string, PromptError> {
    if WantsBio(a) then
      var t :- Get(config, "rapper", "system_message", "biographical_section");
      FormatTemplate(t, map["rapper_name" := a.rapperName, "biographical_info" := a.biographicalInfo.value,
                            "opponent_name" := a.opponentName,
                            "opponent_biographical_info" := a.opponentBiographicalInfo.value])
    else if a.isFirstRound then
      var t :- Get(config, "rapper", "system_message", "first_round_research");
      FormatTemplate(t, map["rapper_name" := a.rapperName, "opponent_name" := a.opponentName])
    else Ok("")
  }

  /** Each previous verse through `rapper_verse_format`, in order. */
  function FormattedVerses(config: PromptConfig, verses: seq<PreviousVerse>): Result<seq<string>, PromptError>
  {
    if |verses| == 0 then Ok([])
    else
      var init :- FormattedVerses(config, verses[..|verses| - 1]);
      var t :- Get(config, "system", "formatting", "rapper_verse_format");
      var v := verses[|verses| - 1];
      var line :- FormatTemplate(t, map["rapper_name" := v.rapperName, "content" := v.content]);
      Ok(init + [line])
  }

  function ContextSection(config: PromptConfig, a: MessageArgs): Result<string, PromptError> {
    if !HasVerses(a) then Ok("")
    else
      var ctx :- Get(config, "rapper", "system_message", "previous_verses_context");
      var lines :- FormattedVerses(config, a.previousVerses.value);
      var sep :- Get(config, "system", "formatting", "verse_separator");
      FormatTemplate(ctx, map["previous_verses_formatted" := Join(lines, sep)])
  }

  /** The message `get_rapper_system_message` builds, or the first error on the way. */
  function SystemMessage(config: PromptConfig, a: MessageArgs): Result<string, PromptError> {
    var base :- BaseSection(config, a);
    var middle :- MiddleSection(config, a);
    var ending :- Get(config, "rapper", "system_message", "common_ending");
    var context :- ContextSection(config, a);
    Ok(base + middle + ending + context)
  }

  /** The message opens with the formatted base template and carries the common ending. */
  lemma SystemMessageFrame(config: PromptConfig, a: MessageArgs)
    requires SystemMessage(config, a).Ok?
    ensures StartsWith(SystemMessage(config, a).value, BaseSection(config, a).value)
    ensures Get(config, "rapper", "system_message", "common_ending").Ok?
  {
    SystemMessageParts(config, a);
    var base, middle := BaseSection(config, a).value, MiddleSection(config, a).value;
    var ending := Get(config, "rapper", "system_message", "common_ending").value;
    var context := ContextSection(config, a).value;
    FourParts(base, middle, ending, context);
    assert SystemMessage(config, a).value == base + middle + ending + context;
  }

  /** With no previous verses the message ends with the common ending, verbatim. */
  lemma SystemMessageEnding(config: PromptConfig, a: MessageArgs)
    requires SystemMessage(config, a).Ok? && !HasVerses(a)
    ensures Get(config, "rapper", "system_message", "common_ending").Ok?
    ensures var m := SystemMessage(config, a).value;
      var ending := Get(config, "rapper", "system_message", "common_ending").value;
      |ending| <= |m| && m[|m| - |ending|..] == ending
  {
    SystemMessageParts(config, a);
    var base, middle := BaseSection(config, a).value, MiddleSection(config, a).value;
    var ending := Get(config, "rapper", "system_message", "common_ending").value;
    var context := ContextSection(config, a).value;
    FourParts(base, middle, ending, context);
    assert SystemMessage(config, a).value == base + middle + ending + context;
  }

  /** A successful message is its four sections, each of which succeeded. */
  lemma SystemMessageParts(config: PromptConfig, a: MessageArgs)
    requires SystemMessage(config, a).Ok?
    ensures BaseSection(config, a).Ok? && MiddleSection(config, a).Ok?
    ensures Get(config, "rapper", "system_message", "common_ending").Ok? && ContextSection(config, a).Ok?
    ensures !HasVerses(a) ==> ContextSection(config, a).value == ""
    ensures SystemMessage(config, a).value
      == BaseSection(config, a).value + MiddleSection(config, a).value
         + Get(config, "rapper", "system_message", "common_ending").value + ContextSection(config, a).value
  {
  }

  lemma FourParts(base: string, middle: string, ending: string, context: string)
    ensures StartsWith(base + middle + ending + context, base)
    ensures context == "" ==>
      var m := base + middle + ending + context;
      |ending| <= |m| && m[|m| - |ending|..] == ending
  {
    var m := base + middle + ending + context;
    assert m == base + (middle + ending + context);
    assert m[..|base|] == base;
    if context == "" {
      assert m == (base + middle) + ending;
      assert m[|m| - |ending|..] == ending;
    }
  }

  /**
   * At most one of the biographical and research sections is added: the
   * biographical one exactly when asked for with both texts present, else the
   * research one exactly for the first round.
   */
  lemma MiddleSectionChoice(config: PromptConfig, a: MessageArgs)
    requires MiddleSection(config, a).Ok?
    ensures WantsBio(a) ==> Get(config, "rapper", "system_message", "biographical_section").Ok?
    ensures !WantsBio(a) && a.isFirstRound ==> Get(config, "rapper", "system_message", "first_round_research").Ok?
    ensures !WantsBio(a) && !a.isFirstRound ==> MiddleSection(config, a) == Ok("")
  {
  }

  /** The context section lists every previous verse, one formatted entry per verse. */
  lemma {:induction false} FormattedVersesCount(config: PromptConfig, verses: seq<PreviousVerse>)
    requires FormattedVerses(config, verses).Ok?
    ensures |FormattedVerses(config, verses).value| == |verses|
    ensures |verses| > 0 ==> Get(config, "system", "formatting", "rapper_verse_format").Ok?
  {
    if |verses| > 0 {
      FormattedVersesCount(config, verses[..|verses| - 1]);
    }
  }

  /** `get_rapper_system_message`, appending to the message as it goes. */
  method GetRapperSystemMessage(config: PromptConfig, a: MessageArgs) returns (r: Result<string, PromptError>)
    ensures r == SystemMessage(config, a)
  {
    var base := BaseSection(config, a);
    if base.Err? {
      return Err(base.error);
    }
    var content := base.value;
    var middle := MiddleSection(config, a);
    if middle.Err? {
      return Err(middle.error);
    }
    content := content + middle.value;
    var ending := Get(config, "rapper", "system_message", "common_ending");
    if ending.Err? {
      return Err(ending.error);
    }
    content := content + ending.value;
    if HasVerses(a) {
      var ctx := Get(config, "rapper", "system_message", "previous_verses_context");
      if ctx.Err? {
        return Err(ctx.error);
      }
      var verses := a.previousVerses.value;
      var formatted: seq<string> := [];
      var k := 0;
      while k < |verses|
        invariant 0 <= k <= |verses|
        invariant FormattedVerses(config, verses[..k]) == Ok(formatted)
      {
        assert verses[..k + 1][..k] == verses[..k];
        var verseFormat := Get(config, "system", "formatting", "rapper_verse_format");
        if verseFormat.Err? {
          FormattedVersesErr(config, verses, k + 1);
          return Err(verseFormat.error);
        }
        var line := FormatTemplate(verseFormat.value,
          map["rapper_name" := verses[k].rapperName, "content" := verses[k].content]);
        if line.Err? {
          FormattedVersesErr(config, verses, k + 1);
          return Err(line.error);
        }
        formatted := formatted + [line.value];
        k := k + 1;
      }
      assert verses[..k] == verses;
      var sep := Get(config, "system", "formatting", "verse_separator");
      if sep.Err? {
        return Err(sep.error);
      }
      var context := FormatTemplate(ctx.value, map["previous_verses_formatted" := Join(formatted, sep.value)]);
      if context.Err? {
        return Err(context.error);
      }
      content := content + context.value;
    }
    assert content == base.value + middle.value + ending.value + ContextSection(config, a).value;
    r := Ok(content);
  }

  /** A failure while formatting verse `k - 1` is the failure of the whole list. */
  lemma {:induction false} FormattedVersesErr(config: PromptConfig, verses: seq<PreviousVerse>, k: nat)
    requires 0 < k <= |verses|
    requires FormattedVerses(config, verses[..k]).Err?
    ensures FormattedVerses(config, verses) == FormattedVerses(config, verses[..k])
    decreases |verses| - k
  {
    if k < |verses| {
      assert verses[..k + 1][..k] == verses[..k];
      FormattedVersesErr(config, verses, k + 1);
    } else {
      assert verses[..k] == verses;
    }
  }
  /** `get_judge_system_prompt`: the raw `template` entry of `evaluation.judge_system_prompt`. */
  function JudgeSystemPrompt(config: PromptConfig): Result<string, PromptError> {
    GetPrompt(config, "evaluation", "judge_system_prompt", Some("template"))
  }

  /** `get_judge_input_template(**vars)` */
  function JudgeInputTemplate(config: PromptConfig, vars: map<string, string>): Result<string, PromptError> {
    var t :- GetPrompt(config, "evaluation", "judge_input_template", Some("template"));
    FormatTemplate(t, vars)
  }

  /**
   * With the usual layout, `[judge_system_prompt] template = "..."`, the judge's
   * system prompt is that text unformatted, braces and all.
   */
  lemma JudgeSystemPromptRaw(config: PromptConfig, text: string)
    requires "judge_system_prompt" in config.evaluationPrompts
    requires config.evaluationPrompts["judge_system_prompt"] == TTable(map["template" := TStr(text)])
    ensures JudgeSystemPrompt(config) == Ok(text)
  {
  }

  /** The judge input is the `template` entry formatted with the given variables; a missing one is named. */
  lemma JudgeInputFormatted(config: PromptConfig, text: string, vars: map<string, string>)
    requires "judge_input_template" in config.evaluationPrompts
    requires config.evaluationPrompts["judge_input_template"] == TTable(map["template" := TStr(text)])
    ensures JudgeInputTemplate(config, vars).Ok? <==> Format(text, vars).Ok?
    ensures Format(text, vars).Ok? ==> JudgeInputTemplate(config, vars).value == Format(text, vars).value
    ensures Format(text, vars).Err? && Format(text, vars).error.MissingKey? ==>
      JudgeInputTemplate(config, vars) == Err(MissingVariable(Format(text, vars).error.name))
  {
  }
}
