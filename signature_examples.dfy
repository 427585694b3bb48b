/** The renderings promised by the module docstring of
    sphinxcontrib_trio/__init__.py (lines 13-56), as text. */
module SignatureExamples {
  import opened Wrappers
  import opened Merging
  import opened Signatures

  /** `.. function:: foo(x, y)` with `:with: bar`. */
  lemma ContextManagerFunction(options: OptionMap, host: seq<SigPart>)
    requires options == map["with" := Some("bar")]
    requires host == [DescName("foo"), DescParameterList("(x, y)")]
    ensures Text(RenderedSignature(options, "function", host)) == "with foo(x, y)\U{00A0}as bar"
  {
    var suffixes := WithBar(options);
    ContextManagerFunctionText(host, suffixes);
    Assembled(options, "function", host, "with ", false, suffixes, "with foo(x, y)\U{00A0}as bar");
  }

  /** The same with the optional name left out (docutils then gives the
      option the empty string): no annotation. */
  lemma ContextManagerFunctionWithoutName(options: OptionMap, host: seq<SigPart>)
    requires options == map["with" := Some("")]
    requires host == [DescName("foo"), DescParameterList("(x, y)")]
    ensures Text(RenderedSignature(options, "function", host)) == "with foo(x, y)"
  {
    WithoutName(options);
    ContextManagerFunctionWithoutNameText(host);
    Assembled(options, "function", host, "with ", false, [], "with foo(x, y)");
  }

  /** An abstract async classmethod. */
  lemma AbstractAsyncClassMethod(options: OptionMap, host: seq<SigPart>)
    requires options == map["abstractmethod" := None, "classmethod" := None, "async" := None]
    requires host == [DescName("foo"), DescParameterList("()")]
    ensures Text(RenderedSignature(options, "method", host)) == "abstractmethod classmethod await foo()"
  {
    AbstractAsyncClassMethodFlags(options);
    AbstractAsyncClassMethodText(host);
    Assembled(options, "method", host, "abstractmethod classmethod await ", false, [],
              "abstractmethod classmethod await foo()");
  }

  /** An abstract static decorator written without parameters: an "@",
      and no empty parameter list is asked for. */
  lemma AbstractStaticDecorator(options: OptionMap, host: seq<SigPart>)
    requires options == map["abstractmethod" := None, "staticmethod" := None, "decorator" := None]
    requires host == [DescName("foo")]
    ensures !NeedsArglist(options, "method")
    ensures Text(RenderedSignature(options, "method", host)) == "abstractmethod staticmethod @foo"
  {
    AbstractStaticDecoratorFlags(options);
    AbstractStaticDecoratorText(host);
    Assembled(options, "method", host, "abstractmethod staticmethod ", true, [],
              "abstractmethod staticmethod @foo");
  }

  /** A `:for:` option with no value renders a placeholder name. */
  lemma IteratorWithoutName()
    ensures SignaturePrefix(map["for" := Some("")], "function") == "for ... in "
  {
    var options: OptionMap := map["for" := Some("")];
    assert LoopOf(options, "for") == Some("...") by {
      assert Value(options, "for") == "";
    }
    assert ConditionsOf(options, "function") == PrefixConditions(false, false, false, false, false, Some("..."), None, false);
  }

  /** `:async-for: row` names the loop variable. */
  lemma AsyncIteratorWithName()
    ensures SignaturePrefix(map["async-for" := Some("row")], "method") == "async for row in "
  {
    var options: OptionMap := map["async-for" := Some("row")];
    assert LoopOf(options, "async-for") == Some("row") by {
      assert Value(options, "async-for") == "row";
      assert !IsSpace("row"[0]);
    }
    assert ConditionsOf(options, "method") == PrefixConditions(false, false, false, false, false, None, Some("row"), false);
  }

  /** The legacy `.. staticmethod::` directive gets the prefix from its
      directive name alone. */
  lemma LegacyStaticMethodDirective()
    ensures SignaturePrefix(map[], "staticmethod") == "staticmethod "
  {
    assert ConditionsOf(map[], "staticmethod") == PrefixConditions(false, true, false, false, false, None, None, false);
  }

  // ---------------------------------------------------------------------
  // Steps of the examples

  /** A rendering, once its prefix, decorator mark and suffixes are known
      and the text of their assembly is. */
  lemma Assembled(options: OptionMap, objtype: string, host: seq<SigPart>,
                  prefix: string, decorator: bool, suffixes: seq<SigPart>, text: string)
    requires SignaturePrefix(options, objtype) == prefix
    requires MarksDecorator(options, objtype) == decorator
    requires AsSuffixes(options, ContextManagerOptions) == suffixes
    requires Text(HeadParts(prefix, decorator) + host + suffixes) == text
    ensures Text(RenderedSignature(options, objtype, host)) == text
  {
  }

  lemma ContextManagerFunctionText(host: seq<SigPart>, suffixes: seq<SigPart>)
    requires host == [DescName("foo"), DescParameterList("(x, y)")]
    requires suffixes == [DescAnnotation("\U{00A0}as bar")]
    ensures Text(HeadParts("with ", false) + host + suffixes) == "with foo(x, y)\U{00A0}as bar"
  {
    assert HeadParts("with ", false) + host + suffixes
        == [DescAnnotation("with "), DescName("foo"), DescParameterList("(x, y)"), DescAnnotation("\U{00A0}as bar")];
    TextOfFour(DescAnnotation("with "), DescName("foo"), DescParameterList("(x, y)"), DescAnnotation("\U{00A0}as bar"));
  }

  lemma ContextManagerFunctionWithoutNameText(host: seq<SigPart>)
    requires host == [DescName("foo"), DescParameterList("(x, y)")]
    ensures Text(HeadParts("with ", false) + host + []) == "with foo(x, y)"
  {
    assert HeadParts("with ", false) + host + [] == [DescAnnotation("with "), DescName("foo"), DescParameterList("(x, y)")];
    TextOfThree(DescAnnotation("with "), DescName("foo"), DescParameterList("(x, y)"));
  }

  lemma AbstractAsyncClassMethodText(host: seq<SigPart>)
    requires host == [DescName("foo"), DescParameterList("()")]
    ensures Text(HeadParts("abstractmethod classmethod await ", false) + host + [])
         == "abstractmethod classmethod await foo()"
  {
    assert HeadParts("abstractmethod classmethod await ", false) + host + []
        == [DescAnnotation("abstractmethod classmethod await "), DescName("foo"), DescParameterList("()")];
    TextOfThree(DescAnnotation("abstractmethod classmethod await "), DescName("foo"), DescParameterList("()"));
  }

  lemma AbstractStaticDecoratorText(host: seq<SigPart>)
    requires host == [DescName("foo")]
    ensures Text(HeadParts("abstractmethod staticmethod ", true) + host + [])
         == "abstractmethod staticmethod @foo"
  {
    assert HeadParts("abstractmethod staticmethod ", true) + host + []
        == [DescAnnotation("abstractmethod staticmethod "), DescAddname("@"), DescName("foo")];
    TextOfThree(DescAnnotation("abstractmethod staticmethod "), DescAddname("@"), DescName("foo"));
  }

  lemma WithBar(options: OptionMap) returns (suffixes: seq<SigPart>)
    requires options == map["with" := Some("bar")]
    ensures SignaturePrefix(options, "function") == "with "
    ensures !MarksDecorator(options, "function")
    ensures suffixes == AsSuffixes(options, ContextManagerOptions) == [DescAnnotation("\U{00A0}as bar")]
  {
    assert "with" in options;
    assert ConditionsOf(options, "function") == PrefixConditions(false, false, false, true, false, None, None, false);
    suffixes := AsSuffixes(options, ContextManagerOptions);
    assert !IsSpace("bar"[0]);
    assert Value(options, "with") == "bar";
    assert Value(options, "async-with") == "";
    AsSuffixesOfContextManagers(options);
    assert "\U{00A0}as " + "bar" == "\U{00A0}as bar";
    assert [DescAnnotation("\U{00A0}as bar")] + [] == [DescAnnotation("\U{00A0}as bar")];
  }

  lemma WithoutName(options: OptionMap)
    requires options == map["with" := Some("")]
    ensures SignaturePrefix(options, "function") == "with "
    ensures !MarksDecorator(options, "function")
    ensures AsSuffixes(options, ContextManagerOptions) == []
  {
    assert ConditionsOf(options, "function") == PrefixConditions(false, false, false, true, false, None, None, false);
    assert Value(options, "with") == "";
    assert Value(options, "async-with") == "";
    AsSuffixesOfContextManagers(options);
  }

  lemma AbstractAsyncClassMethodFlags(options: OptionMap)
    requires options == map["abstractmethod" := None, "classmethod" := None, "async" := None]
    ensures SignaturePrefix(options, "method") == "abstractmethod classmethod await "
    ensures !MarksDecorator(options, "method")
    ensures AsSuffixes(options, ContextManagerOptions) == []
  {
    assert ConditionsOf(options, "method") == PrefixConditions(true, false, true, false, false, None, None, true);
    assert Value(options, "with") == "";
    assert Value(options, "async-with") == "";
    AsSuffixesOfContextManagers(options);
  }

  lemma AbstractStaticDecoratorFlags(options: OptionMap)
    requires options == map["abstractmethod" := None, "staticmethod" := None, "decorator" := None]
    ensures SignaturePrefix(options, "method") == "abstractmethod staticmethod "
    ensures MarksDecorator(options, "method") && !NeedsArglist(options, "method")
    ensures AsSuffixes(options, ContextManagerOptions) == []
  {
    assert ConditionsOf(options, "method") == PrefixConditions(true, true, false, false, false, None, None, false);
    assert Value(options, "with") == "";
    assert Value(options, "async-with") == "";
    AsSuffixesOfContextManagers(options);
  }

  lemma TextOfThree(a: SigPart, b: SigPart, c: SigPart)
    ensures Text([a, b, c]) == a.text + b.text + c.text
  {
    assert [a, b, c][1..] == [b, c] && [b, c][1..] == [c] && [c][1..] == [];
    assert Text([c]) == c.text;
    assert Text([b, c]) == b.text + c.text;
  }

  lemma TextOfFour(a: SigPart, b: SigPart, c: SigPart, d: SigPart)
    ensures Text([a, b, c, d]) == a.text + b.text + c.text + d.text
  {
    assert [a, b, c, d][1..] == [b, c, d];
    TextOfThree(b, c, d);
  }
}
