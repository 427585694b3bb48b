/** The automethod promises of the module docstring of
    sphinxcontrib_trio/__init__.py (lines 36-39 and 48-56), followed from
    the object in the class `__dict__` through sniffing, the passthrough
    lines and the generated `.. method::` directive to the rendered text. */
module AutodocExamples {
  import opened Wrappers
  import opened Options
  import opened Sniffing
  import opened Merging
  import opened Passthrough
  import opened Signatures
  import opened SniffExamples
  import opened SignatureExamples

  /** `.. automethod:: foo` on `@classmethod @abstractmethod async def foo()`
      renders like the written directive with `:abstractmethod:`,
      `:classmethod:` and `:async:`. */
  lemma AutoAbstractAsyncClassMethod(obj: Node, host: seq<SigPart>)
    requires obj == ClassMethodOf(Function(50, true, true, false, None))
    requires host == [DescName("foo"), DescParameterList("()")]
    ensures var lines := OptionLines(Updated(map[], obj, CmCodes), SpecKeys(ExtendedMethodOptionSpec));
            && ParseOptionLines(lines).Some?
            && Text(RenderedSignature(DirectiveOptions(ParseOptionLines(lines).value), "method", host))
               == "abstractmethod classmethod await foo()"
  {
    var m := AbstractAsyncClassMethodSniffed(obj);
    ReachesMethodDirective(m);
    AbstractAsyncClassMethod(m, host);
  }

  /** `.. automethod:: foo` with `:decorator:` on
      `@staticmethod @abstractmethod def foo()` renders
      "abstractmethod staticmethod @foo". */
  lemma AutoAbstractStaticDecorator(obj: Node, given: OptionMap, host: seq<SigPart>)
    requires obj == StaticMethodOf(Function(51, true, false, false, None))
    requires given == map["decorator" := None]
    requires host == [DescName("foo")]
    ensures var lines := OptionLines(Updated(given, obj, CmCodes), SpecKeys(ExtendedMethodOptionSpec));
            && ParseOptionLines(lines).Some?
            && Text(RenderedSignature(DirectiveOptions(ParseOptionLines(lines).value), "method", host))
               == "abstractmethod staticmethod @foo"
  {
    var m := AbstractStaticDecoratorSniffed(obj, given);
    ReachesMethodDirective(m);
    AbstractStaticDecorator(m, host);
  }

  // ---------------------------------------------------------------------
  // Steps of the examples

  /** Options made only of method options reach the generated method
      directive unchanged. */
  lemma ReachesMethodDirective(m: OptionMap)
    requires forall k :: k in m ==> k in MethodKeys
    ensures ParseOptionLines(OptionLines(m, SpecKeys(ExtendedMethodOptionSpec))).Some?
    ensures DirectiveOptions(ParseOptionLines(OptionLines(m, SpecKeys(ExtendedMethodOptionSpec))).value) == m
  {
    SpecKeysOfTables();
    SpecNamesHaveNoColon();
    PassthroughReachesDirective(m, SpecKeys(ExtendedMethodOptionSpec));
    RestrictToAllNames(m, SpecKeys(ExtendedMethodOptionSpec));
  }

  lemma AbstractAsyncClassMethodSniffed(obj: Node) returns (m: OptionMap)
    requires obj == ClassMethodOf(Function(50, true, true, false, None))
    ensures m == map["abstractmethod" := None, "classmethod" := None, "async" := None]
    ensures Updated(map[], obj, CmCodes) == m
    ensures forall k :: k in m ==> k in MethodKeys
  {
    var sniffed := AbstractAsyncClassMethodTags(obj);
    m := map["abstractmethod" := None, "classmethod" := None, "async" := None];
    MergedInto(map[], sniffed, m);
    assert MethodKeys[0] == "async" && MethodKeys[6] == "abstractmethod" && MethodKeys[8] == "classmethod";
  }

  lemma AbstractAsyncClassMethodTags(obj: Node) returns (sniffed: set<Tag>)
    requires obj == ClassMethodOf(Function(50, true, true, false, None))
    ensures sniffed == Sniff(obj, CmCodes) == {AbstractMethod, ClassMethod, Async}
  {
    SniffFromWalk(obj, CmCodes, {});
    SniffFromWalk(Function(50, true, true, false, None), CmCodes, {AbstractMethod, ClassMethod});
    sniffed := Sniff(obj, CmCodes);
  }

  lemma AbstractStaticDecoratorSniffed(obj: Node, given: OptionMap) returns (m: OptionMap)
    requires obj == StaticMethodOf(Function(51, true, false, false, None))
    requires given == map["decorator" := None]
    ensures m == map["abstractmethod" := None, "staticmethod" := None, "decorator" := None]
    ensures Updated(given, obj, CmCodes) == m
    ensures forall k :: k in m ==> k in MethodKeys
  {
    var sniffed := AbstractStaticDecoratorTags(obj);
    m := map["abstractmethod" := None, "staticmethod" := None, "decorator" := None];
    MergedInto(given, sniffed, m);
    assert MethodKeys[1] == "decorator" && MethodKeys[6] == "abstractmethod" && MethodKeys[7] == "staticmethod";
  }

  lemma AbstractStaticDecoratorTags(obj: Node) returns (sniffed: set<Tag>)
    requires obj == StaticMethodOf(Function(51, true, false, false, None))
    ensures sniffed == Sniff(obj, CmCodes) == {AbstractMethod, StaticMethod}
  {
    SniffFromWalk(obj, CmCodes, {});
    SniffFromWalk(Function(51, true, false, false, None), CmCodes, {AbstractMethod, StaticMethod});
    sniffed := Sniff(obj, CmCodes);
  }

  /** Flags merged into flags, when no tag is no-auto-options: the result is
      every name, each `None`. */
  lemma MergedInto(given: OptionMap, sniffed: set<Tag>, m: OptionMap)
    requires forall k :: k in given ==> given[k] == None
    requires m.Keys == given.Keys + Names(sniffed)
    requires forall k :: k in m ==> m[k] == None
    ensures Merge(given, sniffed) == m
  {
    assert Merge(given, sniffed).Keys == m.Keys;
  }
}
