/** The autodoc documenters (sphinxcontrib_trio/__init__.py:302-358): they
    sniff the documented object into their options when importing it, and
    pass those options through to the generated directive. */
module Documenters {
  import opened Wrappers
  import opened Options
  import opened Sniffing
  import opened Merging
  import opened Passthrough

  /** ExtendedFunctionDocumenter. `lines` is the directive text generated
      so far. */
  class FunctionDocumenter {
    var options: OptionDict
    var lines: seq<string>

    constructor (initial: OptionMap)
      ensures fresh(options) && options.entries == initial && lines == []
    {
      options := new OptionDict(initial);
      lines := [];
    }

    /** import_object, after the host has imported `obj`: copy the options
        (autodoc shares the dictionary) and sniff into the copy. */
    method ImportObject(obj: Node, cmCodes: set<CodeId>)
      modifies this
      ensures fresh(options)
      ensures options.entries == Updated(old(options.entries), obj, cmCodes)
      ensures lines == old(lines)
    {
      options := new OptionDict(options.entries);
      UpdateWithSniffedOptions(obj, cmCodes, options);
    }

    /** add_directive_header: the host's header lines, then the function
        options as option lines. */
    method AddDirectiveHeader(header: seq<string>)
      modifies this
      ensures options == old(options)
      ensures lines == old(lines) + header + OptionLines(options.entries, SpecKeys(ExtendedFunctionOptionSpec))
    {
      lines := lines + header;
      var passed := PassthroughOptionLines(options.entries, ExtendedFunctionOptionSpec);
      lines := lines + passed;
    }
  }

  /** ExtendedMethodDocumenter. `memberOrder` is autodoc's sort key. */
  class MethodDocumenter {
    var options: OptionDict
    var lines: seq<string>
    var memberOrder: int

    constructor (initial: OptionMap, order: int)
      ensures fresh(options) && options.entries == initial && lines == [] && memberOrder == order
    {
      options := new OptionDict(initial);
      lines := [];
      memberOrder := order;
    }

    /** import_object: `obj` is the entry of the class `__dict__` (the
        classmethod or staticmethod object itself); sniff it into a copy of
        the options, then lower the sort key `member_order` of bound members
        by one, as the host's own MethodDocumenter does, so that they sort
        ahead of plain methods when members are ordered by group. */
    method ImportObject(obj: Node, cmCodes: set<CodeId>)
      modifies this
      ensures fresh(options)
      ensures options.entries == Updated(old(options.entries), obj, cmCodes)
      ensures memberOrder == old(memberOrder) - if BoundMember(options.entries) then 1 else 0
      ensures lines == old(lines)
    {
      options := new OptionDict(options.entries);
      UpdateWithSniffedOptions(obj, cmCodes, options);
      if "classmethod" in options.entries || "staticmethod" in options.entries {
        memberOrder := memberOrder - 1;
      }
    }

    /** add_directive_header: the host's header lines, then the method
        options as option lines. */
    method AddDirectiveHeader(header: seq<string>)
      modifies this
      ensures options == old(options) && memberOrder == old(memberOrder)
      ensures lines == old(lines) + header + OptionLines(options.entries, SpecKeys(ExtendedMethodOptionSpec))
    {
      lines := lines + header;
      var passed := PassthroughOptionLines(options.entries, ExtendedMethodOptionSpec);
      lines := lines + passed;
    }
  }

  /** The options mark a classmethod or a staticmethod. */
  predicate BoundMember(options: OptionMap)
  {
    "classmethod" in options || "staticmethod" in options
  }

  /** A classmethod or staticmethod object anywhere on the walked chain
      makes the member a bound member, whose member_order ImportObject
      lowers, unless auto-detection is switched off. */
  lemma SniffedBindingLowersMemberOrder(m: OptionMap, obj: Node, cmCodes: set<CodeId>)
    requires NoAutoOptions !in m
    requires exists i :: 0 <= i < |Walk(obj)| && (Walk(obj)[i].isClassMethod || Walk(obj)[i].isStaticMethod)
    ensures BoundMember(Updated(m, obj, cmCodes))
  {
    var i :| 0 <= i < |Walk(obj)| && (Walk(obj)[i].isClassMethod || Walk(obj)[i].isStaticMethod);
    if Walk(obj)[i].isClassMethod {
      assert HasMark(Walk(obj)[i], ClassMethod);
      ModifiersAreNotGated(obj, cmCodes, ClassMethod);
      assert TagName(ClassMethod) in Names(Sniff(obj, cmCodes));
    } else {
      assert HasMark(Walk(obj)[i], StaticMethod);
      ModifiersAreNotGated(obj, cmCodes, StaticMethod);
      assert TagName(StaticMethod) in Names(Sniff(obj, cmCodes));
    }
  }

  /** With auto-detection switched off, only explicit options decide
      whether member_order is lowered. */
  lemma NoAutoOptionsKeepsExplicitOrder(m: OptionMap, obj: Node, cmCodes: set<CodeId>)
    requires NoAutoOptions in m
    ensures BoundMember(Updated(m, obj, cmCodes)) <==> BoundMember(m)
  {
  }
}
