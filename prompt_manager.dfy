/** The prompt template table (rag_system/prompt_manager.py): a map from
    template name to template text, filled from the YAML files of a prompts
    directory, and the substitution of the retrieved context and the query
    into a named template. A prompts directory is given as the list of its
    entries, each with the `name` and `template` its YAML parses to. */
module PromptManager {
  import opened Wrappers
  import opened Strings

  /** A directory entry: its file name and, for a YAML file, the `name` and
      `template` fields it parses to. */
  datatype PromptFile = PromptFile(filename: string, name: string, template: string)

  datatype Error =
    | DirectoryNotFound        // the prompts directory does not exist
    | TemplateNotFound(name: string)
    | MalformedTemplate        // `str.format` rejects the template

  /** `filename.endswith('.yaml')`: only such files are loaded. */
  predicate IsYaml(f: PromptFile) {
    EndsWith(f.filename, ".yaml")
  }

  /** One step of the loading loop: a YAML file stores its template under its
      name, replacing any earlier one; other files change nothing. */
  function Store(templates: map<string, string>, f: PromptFile): map<string, string> {
    if IsYaml(f) then templates[f.name := f.template] else templates
  }

  /** The loading loop of `_load_templates`, in listing order. */
  function Fill(templates: map<string, string>, files: seq<PromptFile>): map<string, string>
    decreases |files|
  {
    if files == [] then templates else Fill(Store(templates, files[0]), files[1..])
  }

  /** The template of the last YAML file in the listing that carries `name`. */
  function LastTemplate(files: seq<PromptFile>, name: string): Option<string>
    decreases |files|
  {
    if files == [] then None
    else
      var f := files[|files| - 1];
      if IsYaml(f) && f.name == name then Some(f.template)
      else LastTemplate(files[..|files| - 1], name)
  }

  /** `templates.get(name)`. */
  function Lookup(templates: map<string, string>, name: string): Option<string> {
    if name in templates then Some(templates[name]) else None
  }

  /** Loading one more file is storing it into what the earlier ones loaded. */
  lemma {:induction false} FillSnoc(templates: map<string, string>, files: seq<PromptFile>, f: PromptFile)
    ensures Fill(templates, files + [f]) == Store(Fill(templates, files), f)
    decreases |files|
  {
    if files == [] {
      assert files + [f] == [f];
      assert [f][1..] == [];
    } else {
      assert (files + [f])[0] == files[0];
      assert (files + [f])[1..] == files[1..] + [f];
      FillSnoc(Store(templates, files[0]), files[1..], f);
    }
  }

  /** Last write wins: after loading, a name holds the template of the last
      YAML file that carries it, and a name no YAML file carries keeps what
      it held before. */
  lemma {:induction false} FillLastWriteWins(templates: map<string, string>, files: seq<PromptFile>, name: string)
    ensures Lookup(Fill(templates, files), name)
         == if LastTemplate(files, name).Some? then LastTemplate(files, name) else Lookup(templates, name)
    decreases |files|
  {
    if files != [] {
      var init := files[..|files| - 1];
      var f := files[|files| - 1];
      assert files == init + [f];
      FillSnoc(templates, init, f);
      FillLastWriteWins(templates, init, name);
    }
  }

  /** Prefixes a successful result with `prefix`; an error stays as it is. */
  function Prepend(prefix: string, r: Result<string, Error>): Result<string, Error> {
    match r
    case Ok(s) => Ok(prefix + s)
    case Err(e) => Err(e)
  }

  lemma PrependTwice(a: string, b: string, r: Result<string, Error>)
    ensures Prepend(a, Prepend(b, r)) == Prepend(a + b, r)
  {
    if r.Ok? {
      assert a + (b + r.value) == (a + b) + r.value;
    }
  }

  /** True when `s` holds no brace, so `str.format` reads it literally. */
  predicate NoBraces(s: string) {
    forall i :: 0 <= i < |s| ==> s[i] != '{' && s[i] != '}'
  }

  /** The leading token of a template: the text it stands for and how many
      characters it spans, or `Bad` for a brace `str.format` rejects. */
  datatype Token = Text(text: string, width: nat) | Bad

  /** Reads the token at the head of a non-empty template: `{{` and `}}` stand
      for single braces, `{context}` and `{query}` for the arguments, any
      other brace is rejected, any other character stands for itself. */
  function Scan(template: string, context: string, query: string): (t: Token)
    requires template != []
    ensures t.Text? ==> 0 < t.width <= |template|
    ensures template[0] != '{' && template[0] != '}' ==> t == Text([template[0]], 1)
  {
    if StartsWith(template, "{{") then Text("{", 2)
    else if StartsWith(template, "}}") then Text("}", 2)
    else if StartsWith(template, "{context}") then Text(context, 9)
    else if StartsWith(template, "{query}") then Text(query, 7)
    else if template[0] == '{' || template[0] == '}' then Bad
    else Text([template[0]], 1)
  }

  /** `template.format(context=context, query=query)` scanned left to right,
      token by token; the arguments' own text is never scanned again. */
  function Substitute(template: string, context: string, query: string): (r: Result<string, Error>)
    ensures r.Err? ==> r.error == MalformedTemplate
    ensures NoBraces(template) ==> r == Ok(template)
    decreases |template|
  {
    if template == [] then Ok("")
    else
      match Scan(template, context, query)
      case Bad => Err(MalformedTemplate)
      case Text(text, width) =>
        assert NoBraces(template) ==> text + template[width..] == template && NoBraces(template[width..]);
        Prepend(text, Substitute(template[width..], context, query))
  }

  /** A character as literal template text: a brace is doubled. */
  function EscapeChar(c: char): string {
    if c == '{' then "{{" else if c == '}' then "}}" else [c]
  }

  /** Literal text written as a template: every brace doubled. */
  function Escape(s: string): string
    decreases |s|
  {
    if s == [] then "" else EscapeChar(s[0]) + Escape(s[1..])
  }

  /** An escaped character at the head of a template reads back as itself. */
  lemma ScanEscapedChar(c: char, rest: string, context: string, query: string)
    ensures var t := EscapeChar(c) + rest;
      t != [] && Scan(t, context, query) == Text([c], |EscapeChar(c)|)
  {
    var t := EscapeChar(c) + rest;
    if c == '{' {
      assert t[..2] == "{{";
    } else if c == '}' {
      assert t[..2] == "}}";
      assert !StartsWith(t, "{{");
    } else {
      assert t[0] == c;
    }
  }

  /** Escaped text in front of a template comes out as the text itself. */
  lemma {:induction false} SubstituteEscaped(text: string, rest: string, context: string, query: string)
    ensures Substitute(Escape(text) + rest, context, query) == Prepend(text, Substitute(rest, context, query))
    decreases |text|
  {
    if text == [] {
      assert Escape(text) + rest == rest;
      match Substitute(rest, context, query)
      case Ok(s) => assert text + s == s;
      case Err(_) =>
    } else {
      var c := text[0];
      var tail := Escape(text[1..]) + rest;
      var t := Escape(text) + rest;
      assert t == EscapeChar(c) + tail;
      ScanEscapedChar(c, tail, context, query);
      assert t[|EscapeChar(c)|..] == tail;
      SubstituteEscaped(text[1..], rest, context, query);
      assert text == [c] + text[1..];
      PrependTwice([c], text[1..], Substitute(rest, context, query));
    }
  }

  /** Escaping is undone by formatting: an escaped text formats to itself. */
  lemma SubstituteEscapeRoundTrip(text: string, context: string, query: string)
    ensures Substitute(Escape(text), context, query) == Ok(text)
  {
    SubstituteEscaped(text, "", context, query);
    assert Escape(text) + "" == Escape(text);
    assert text + "" == text;
  }

  /** A `{context}` field at the head of a template stands for the context. */
  lemma SubstituteContextField(rest: string, context: string, query: string)
    ensures Substitute("{context}" + rest, context, query) == Prepend(context, Substitute(rest, context, query))
  {
    var t := "{context}" + rest;
    assert t[..9] == "{context}" && t[9..] == rest;
    assert t[1] == 'c';
    assert t[..2] != "{{" && t[..2] != "}}";
  }

  /** A `{query}` field at the head of a template stands for the query. */
  lemma SubstituteQueryField(rest: string, context: string, query: string)
    ensures Substitute("{query}" + rest, context, query) == Prepend(query, Substitute(rest, context, query))
  {
    var t := "{query}" + rest;
    assert t[..7] == "{query}" && t[7..] == rest;
    assert t[1] == 'q';
    assert t[..2] != "{{" && t[..2] != "}}";
    assert !StartsWith(t, "{context}");
  }

  /** Literal text followed by a `{query}` field and more literal text
      formats to the text, the query, then the rest. */
  lemma SubstituteQueryTail(b: string, c: string, context: string, query: string)
    ensures Substitute(Escape(b) + ("{query}" + Escape(c)), context, query) == Ok(b + (query + c))
  {
    var queryField := "{query}" + Escape(c);
    SubstituteEscapeRoundTrip(c, context, query);
    SubstituteQueryField(Escape(c), context, query);
    assert Substitute(queryField, context, query) == Ok(query + c);
    SubstituteEscaped(b, queryField, context, query);
  }

  /** A template made of literal text around one `{context}` and one
      `{query}` field formats to that text with the two arguments in place,
      whatever the arguments contain. */
  lemma SubstituteFields(a: string, b: string, c: string, context: string, query: string)
    ensures Substitute(Escape(a) + "{context}" + Escape(b) + "{query}" + Escape(c), context, query)
         == Ok(a + context + b + query + c)
  {
    var afterContext := Escape(b) + ("{query}" + Escape(c));
    var contextField := "{context}" + afterContext;
    SubstituteQueryTail(b, c, context, query);
    SubstituteContextField(afterContext, context, query);
    SubstituteEscaped(a, contextField, context, query);
    ConcatRight(Escape(a), "{context}", Escape(b), "{query}", Escape(c));
    ConcatRight(a, context, b, query, c);
  }

  /** Regroups a five-part concatenation; kept apart so that the solver does
      not meet the regrouping inside the field lemma above, where it is used
      for both the template and the result. */
  lemma ConcatRight(s1: string, s2: string, s3: string, s4: string, s5: string)
    ensures s1 + (s2 + (s3 + (s4 + s5))) == s1 + s2 + s3 + s4 + s5
  {
  }

  class PromptManager {
    var templates: map<string, string>

    /** A manager whose table is still empty. */
    constructor ()
      ensures templates == map[]
    {
      templates := map[];
    }

    /** `__init__`: an empty table, then `_load_templates`. `dir` is `None`
        when the prompts directory does not exist. */
    static method Create(dir: Option<seq<PromptFile>>) returns (r: Result<PromptManager, Error>)
      ensures dir.None? ==> r == Err(DirectoryNotFound)
      ensures dir.Some? ==> r.Ok? && fresh(r.value) && r.value.templates == Fill(map[], dir.value)
    {
      var manager := new PromptManager();
      var loaded := manager.LoadTemplates(dir);
      if loaded.Fail? {
        return Err(loaded.error);
      }
      r := Ok(manager);
    }

    /** `_load_templates`: a missing directory raises before anything is
        loaded; otherwise each YAML file stores its template under its name,
        in listing order. */
    method LoadTemplates(dir: Option<seq<PromptFile>>) returns (r: Outcome<Error>)
      modifies this
      ensures dir.None? ==> r == Fail(DirectoryNotFound) && templates == old(templates)
      ensures dir.Some? ==> r == Pass && templates == Fill(old(templates), dir.value)
    {
      if dir.None? {
        return Fail(DirectoryNotFound);
      }
      var files := dir.value;
      for i := 0 to |files|
        invariant Fill(templates, files[i..]) == Fill(old(templates), files)
      {
        assert files[i..][0] == files[i] && files[i..][1..] == files[i + 1..];
        var f := files[i];
        if EndsWith(f.filename, ".yaml") {
          templates := templates[f.name := f.template];
        }
      }
      assert files[|files|..] == [];
      r := Pass;
    }

    /** `get_template(name)`: the stored template, or `None` for an unknown name. */
    function GetTemplate(name: string): (r: Option<string>)
      reads this
      ensures r.Some? <==> name in templates
      ensures r.Some? ==> r.value == templates[name]
    {
      Lookup(templates, name)
    }

    /** `format_prompt(name, context, query)`: an unknown name and an empty
        template both raise "template not found" (the test is on falsiness);
        otherwise the template is formatted with the two arguments. */
    function FormatPrompt(name: string, context: string, query: string): (r: Result<string, Error>)
      reads this
      ensures r == Err(TemplateNotFound(name)) <==> name !in templates || templates[name] == ""
      ensures name in templates && templates[name] != "" ==> r == Substitute(templates[name], context, query)
    {
      match GetTemplate(name)
      case None => Err(TemplateNotFound(name))
      case Some(template) =>
        if template == "" then Err(TemplateNotFound(name))
        else Substitute(template, context, query)
    }
  }
}
