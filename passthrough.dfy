/** passthrough_option_lines (sphinxcontrib_trio/__init__.py:292-300): the
    autodoc documenters re-emit their options as directive option lines so
    that the generated directive sees them. */
module Passthrough {
  import opened Wrappers
  import opened Options
  import opened Merging

  /** The line for one option: `   :name: value`, or `   :name:` when the
      value is `None`. */
  function OptionLine(name: string, value: Option<string>): string
  {
    match value
    case Some(v) => "   :" + name + ": " + v
    case None => "   :" + name + ":"
  }

  /** The lines for the options in `names` that are present, in the order
      of `names`. */
  function OptionLines(options: OptionMap, names: seq<string>): seq<string>
  {
    if names == [] then []
    else
      var name := names[|names| - 1];
      OptionLines(options, names[..|names| - 1])
      + (if name in options then [OptionLine(name, options[name])] else [])
  }

  /** passthrough_option_lines: one pass over the spec, appending a line per
      option the documenter has. */
  method PassthroughOptionLines(options: OptionMap, spec: OptionSpec) returns (lines: seq<string>)
    ensures lines == OptionLines(options, SpecKeys(spec))
  {
    lines := [];
    for i := 0 to |spec|
      invariant lines == OptionLines(options, SpecKeys(spec)[..i])
    {
      var option := spec[i].0;
      assert SpecKeys(spec)[..i + 1][..i] == SpecKeys(spec)[..i];
      if option in options {
        var line: string;
        if options[option] != None {
          line := "   :" + option + ": " + options[option].value;
        } else {
          line := "   :" + option + ":";
        }
        lines := lines + [line];
      }
    }
    assert SpecKeys(spec)[..|spec|] == SpecKeys(spec);
  }

  // ---------------------------------------------------------------------
  // Reading the lines back: a reader of the model's own, the partner of the
  // round-trip lemma below; the extension itself never parses these lines.

  /** The position of the first ':' in `s`, if any. */
  function FirstColon(s: string): (r: Option<nat>)
    ensures r.Some? ==> r.value < |s| && s[r.value] == ':' && ':' !in s[..r.value]
    ensures r.None? ==> ':' !in s
  {
    if s == [] then None
    else if s[0] == ':' then Some(0)
    else
      match FirstColon(s[1..])
      case None => None
      case Some(k) =>
        assert s[..k + 1] == [s[0]] + s[1..][..k];
        Some(k + 1)
  }

  /** How a directive line `   :name: value` or `   :name:` is read: the
      name runs to the next ':', and what follows is either nothing or a
      space and the value. */
  function ParseOptionLine(line: string): Option<(string, Option<string>)>
  {
    if |line| < 4 || line[..4] != "   :" then None
    else
      match FirstColon(line[4..])
      case None => None
      case Some(k) =>
        var name := line[4..4 + k];
        var rest := line[4 + k + 1..];
        if rest == "" then Some((name, None))
        else if rest[0] == ' ' then Some((name, Some(rest[1..])))
        else None
  }

  /** Reading back the line of an option whose name has no ':' gives the
      name and the value. */
  lemma ParseOptionLineRoundTrip(name: string, value: Option<string>)
    requires ':' !in name
    ensures ParseOptionLine(OptionLine(name, value)) == Some((name, value))
  {
    var line := OptionLine(name, value);
    var tail := match value case Some(v) => ": " + v case None => ":";
    assert line == "   :" + name + tail;
    assert line[..4] == "   :";
    assert line[4..] == name + tail;
    FirstColonAfter(name, tail);
    assert line[4..4 + |name|] == name;
    assert line[4 + |name| + 1..] == tail[1..];
  }

  lemma FirstColonAfter(a: string, b: string)
    requires ':' !in a && |b| > 0 && b[0] == ':'
    ensures FirstColon(a + b) == Some(|a|)
  {
    assert (a + b)[|a|] == ':';
  }

  /** Parse every line, failing if any line does not parse. */
  function ParseOptionLines(lines: seq<string>): Option<seq<(string, Option<string>)>>
  {
    if lines == [] then Some([])
    else
      match (ParseOptionLines(lines[..|lines| - 1]), ParseOptionLine(lines[|lines| - 1]))
      case (Some(front), Some(last)) => Some(front + [last])
      case _ => None
  }

  /** The options of `names` that are present, with their values, in the
      order of `names`. */
  function Present(options: OptionMap, names: seq<string>): (r: seq<(string, Option<string>)>)
    ensures forall i :: 0 <= i < |r| ==> r[i].0 in names && r[i].0 in options && r[i].1 == options[r[i].0]
  {
    if names == [] then []
    else
      var name := names[|names| - 1];
      var front := Present(options, names[..|names| - 1]);
      front + (if name in options then [(name, options[name])] else [])
  }

  /** Every option of `names` that is present is listed. */
  lemma {:induction false} PresentIsComplete(options: OptionMap, names: seq<string>, n: string)
    requires n in names && n in options
    ensures exists i :: 0 <= i < |Present(options, names)| && Present(options, names)[i] == (n, options[n])
    decreases |names|
  {
    var name := names[|names| - 1];
    var front := names[..|names| - 1];
    var r := Present(options, names);
    if n == name {
      assert r[|r| - 1] == (n, options[n]);
    } else {
      assert n in front;
      PresentIsComplete(options, front, n);
      var i :| 0 <= i < |Present(options, front)| && Present(options, front)[i] == (n, options[n]);
      assert r[i] == Present(options, front)[i];
    }
  }

  lemma ParseOptionLinesAppend(front: seq<string>, line: string)
    ensures ParseOptionLines(front + [line]) ==
              match (ParseOptionLines(front), ParseOptionLine(line))
              case (Some(f), Some(l)) => Some(f + [l])
              case _ => None
  {
    var all := front + [line];
    assert all[..|all| - 1] == front;
    assert all[|all| - 1] == line;
  }

  /** The passthrough loses nothing: reading its lines back gives exactly
      the spec's options that are present, in spec order, with their
      values (`None` stays distinct from an empty string). */
  lemma {:induction false} PassthroughRoundTrip(options: OptionMap, names: seq<string>)
    requires forall i :: 0 <= i < |names| ==> ':' !in names[i]
    ensures ParseOptionLines(OptionLines(options, names)) == Some(Present(options, names))
    decreases |names|
  {
    if names != [] {
      var name := names[|names| - 1];
      var front := names[..|names| - 1];
      PassthroughRoundTrip(options, front);
      if name in options {
        ParseOptionLineRoundTrip(name, options[name]);
        ParseOptionLinesAppend(OptionLines(options, front), OptionLine(name, options[name]));
      } else {
        assert OptionLines(options, names) == OptionLines(options, front) + [];
        assert Present(options, names) == Present(options, front) + [];
        assert Present(options, front) + [] == Present(options, front);
        assert OptionLines(options, front) + [] == OptionLines(options, front);
      }
    }
  }

  /** The directive's options, built from the pairs read back: each pair
      sets its name to its value. */
  function DirectiveOptions(pairs: seq<(string, Option<string>)>): OptionMap
  {
    if pairs == [] then map[]
    else
      var last := pairs[|pairs| - 1];
      DirectiveOptions(pairs[..|pairs| - 1])[last.0 := last.1]
  }

  /** The options of `options` whose names are in `names`. */
  function Restrict(options: OptionMap, names: seq<string>): (r: OptionMap)
    ensures forall k :: k in r <==> k in options && k in names
    ensures forall k :: k in r ==> r[k] == options[k]
  {
    map k | k in options && k in names :: options[k]
  }

  /** Rebuilding a dictionary from the present options gives back exactly
      the options of `names`, with their values. */
  lemma {:induction false} DirectiveSeesPresent(options: OptionMap, names: seq<string>)
    ensures DirectiveOptions(Present(options, names)) == Restrict(options, names)
    decreases |names|
  {
    if names == [] {
      assert Restrict(options, names).Keys == {};
    } else {
      var name := names[|names| - 1];
      var front := names[..|names| - 1];
      assert names == front + [name];
      DirectiveSeesPresent(options, front);
      var pf := Present(options, front);
      if name in options {
        var all := pf + [(name, options[name])];
        assert Present(options, names) == all;
        assert all[..|all| - 1] == pf;
        assert DirectiveOptions(all) == Restrict(options, front)[name := options[name]];
        assert Restrict(options, front)[name := options[name]].Keys == Restrict(options, names).Keys;
      } else {
        assert Present(options, names) == pf + [];
        assert pf + [] == pf;
        assert Restrict(options, front).Keys == Restrict(options, names).Keys;
      }
    }
  }

  /** Keeping the options of a list that names all of them keeps them all. */
  lemma RestrictToAllNames(options: OptionMap, names: seq<string>)
    requires forall k :: k in options ==> k in names
    ensures Restrict(options, names) == options
  {
  }

  /** What the generated directive sees: the lines read back without error,
      and the dictionary built from them holds exactly the documenter's
      options that the spec names, with their values. */
  lemma PassthroughReachesDirective(options: OptionMap, names: seq<string>)
    requires forall i :: 0 <= i < |names| ==> ':' !in names[i]
    ensures ParseOptionLines(OptionLines(options, names)).Some?
    ensures DirectiveOptions(ParseOptionLines(OptionLines(options, names)).value) == Restrict(options, names)
  {
    PassthroughRoundTrip(options, names);
    DirectiveSeesPresent(options, names);
  }

  /** The option names of every spec table are free of ':'. */
  lemma SpecNamesHaveNoColon()
    ensures forall i :: 0 <= i < |SpecKeys(ExtendedMethodOptionSpec)| ==> ':' !in SpecKeys(ExtendedMethodOptionSpec)[i]
    ensures forall i :: 0 <= i < |SpecKeys(ExtendedFunctionOptionSpec)| ==> ':' !in SpecKeys(ExtendedFunctionOptionSpec)[i]
  {
    SpecKeysOfTables();
  }
}
