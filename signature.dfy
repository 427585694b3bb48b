/** ExtendedCallableMixin (sphinxcontrib_trio/__init__.py:127-211): how the
    function and method directives render the options as text around the
    signature. */
module Signatures {
  import opened Wrappers
  import opened Merging

  /** The characters Python's `str.strip()` removes (those `str.isspace()`
      accepts). */
  predicate IsSpace(c: char)
  {
    || c == ' ' || '\t' <= c <= '\r' || '\U{001C}' <= c <= '\U{001F}'
    || c == '\U{0085}' || c == '\U{00A0}' || c == '\U{1680}'
    || '\U{2000}' <= c <= '\U{200A}' || c == '\U{2028}' || c == '\U{2029}'
    || c == '\U{202F}' || c == '\U{205F}' || c == '\U{3000}'
  }

  /** `not s.strip()`. */
  predicate IsBlank(s: string)
  {
    forall i :: 0 <= i < |s| ==> IsSpace(s[i])
  }

  /** `self.options.get(name, "")`, with a `None` value read as "". */
  function Value(options: OptionMap, name: string): string
  {
    if name in options && options[name].Some? then options[name].value else ""
  }

  /** The condition of needs_arglist and of the "@" in handle_signature. */
  predicate MarksDecorator(options: OptionMap, objtype: string)
  {
    "decorator" in options || objtype in ["decorator", "decoratormethod"]
  }

  /** needs_arglist: whether the host's handle_signature should add an
      empty parameter list to a signature written without one. It should
      not for a decorator; a parameter list written in the signature is
      rendered either way. */
  function NeedsArglist(options: OptionMap, objtype: string): (r: bool)
    ensures r <==> "decorator" !in options && objtype != "decorator" && objtype != "decoratormethod"
  {
    if MarksDecorator(options, objtype) then false else true
  }

  /** The loop variable shown for `for`/`async-for`: the option's value, or
      "..." when that is blank. */
  function LoopName(options: OptionMap, forType: string): (name: string)
    ensures IsBlank(Value(options, forType)) ==> name == "..."
    ensures !IsBlank(Value(options, forType)) ==> name == Value(options, forType)
    ensures !IsBlank(name)
  {
    var name := Value(options, forType);
    if IsBlank(name) then
      assert !IsSpace("..."[0]);
      "..."
    else name
  }

  /** `text` when `cond` holds, else nothing. */
  function Piece(cond: bool, text: string): string
  {
    if cond then text else ""
  }

  /** The eight conditions of the prefix, in rendering order. Each loop
      form carries the variable name it shows. A directive's options and
      directive name determine them (ConditionsOf). */
  datatype PrefixConditions = PrefixConditions(
    abstractMethod: bool,
    staticMethod: bool,
    classMethod: bool,
    withCm: bool,
    asyncWithCm: bool,
    forLoop: Option<string>,
    asyncForLoop: Option<string>,
    awaited: bool)

  /** The loop form `forType` shows, if its option is given. */
  function LoopOf(options: OptionMap, forType: string): Option<string>
  {
    if forType in options then Some(LoopName(options, forType)) else None
  }

  /** The prefix conditions: an option, or for staticmethod and classmethod
      the legacy directive of that name. */
  function ConditionsOf(options: OptionMap, objtype: string): PrefixConditions
  {
    PrefixConditions(
      "abstractmethod" in options,
      "staticmethod" in options || objtype == "staticmethod",
      "classmethod" in options || objtype == "classmethod",
      "with" in options,
      "async-with" in options,
      LoopOf(options, "for"),
      LoopOf(options, "async-for"),
      "async" in options)
  }

  /** `render name in `, when the loop form is shown. */
  function LoopPiece(loop: Option<string>, render: string): string
  {
    match loop
    case None => ""
    case Some(name) => render + " " + name + " in "
  }

  /** The prefix, as the fixed sequence of fragments each present exactly
      when its condition holds. */
  function PrefixText(c: PrefixConditions): string
  {
    Piece(c.abstractMethod, "abstractmethod ")
    + Piece(c.staticMethod, "staticmethod ")
    + Piece(c.classMethod, "classmethod ")
    + Piece(c.withCm, "with ")
    + Piece(c.asyncWithCm, "async with ")
    + LoopPiece(c.forLoop, "for")
    + LoopPiece(c.asyncForLoop, "async for")
    + Piece(c.awaited, "await ")
  }

  function SignaturePrefix(options: OptionMap, objtype: string): string
  {
    PrefixText(ConditionsOf(options, objtype))
  }

  /** _get_signature_prefix: builds the prefix with `+=`, the two loop
      forms in a `for` loop over (option, rendering) pairs. */
  method GetSignaturePrefix(options: OptionMap, objtype: string) returns (ret: string)
    ensures ret == SignaturePrefix(options, objtype)
  {
    ghost var c := ConditionsOf(options, objtype);
    ret := "";
    if "abstractmethod" in options {
      ret := ret + "abstractmethod ";
    }
    assert ret == Piece(c.abstractMethod, "abstractmethod ");
    ghost var r1 := ret;
    if "staticmethod" in options || objtype == "staticmethod" {
      ret := ret + "staticmethod ";
    }
    assert ret == r1 + Piece(c.staticMethod, "staticmethod ");
    ghost var r2 := ret;
    if "classmethod" in options || objtype == "classmethod" {
      ret := ret + "classmethod ";
    }
    assert ret == r2 + Piece(c.classMethod, "classmethod ");
    ghost var r3 := ret;
    if "with" in options {
      ret := ret + "with ";
    }
    assert ret == r3 + Piece(c.withCm, "with ");
    ghost var r4 := ret;
    if "async-with" in options {
      ret := ret + "async with ";
    }
    assert ret == r4 + Piece(c.asyncWithCm, "async with ");
    ret := AddLoopForms(options, ret);
    ghost var r5 := ret;
    if "async" in options {
      ret := ret + "await ";
    }
    assert ret == r5 + Piece(c.awaited, "await ");
  }

  /** The loop of _get_signature_prefix over the `for` and `async-for`
      forms: `render name in ` for each form given, with "..." for a blank
      name. */
  method AddLoopForms(options: OptionMap, head: string) returns (ret: string)
    ensures ret == head + LoopPiece(LoopOf(options, "for"), "for") + LoopPiece(LoopOf(options, "async-for"), "async for")
  {
    ret := head;
    var loops := [("for", "for"), ("async-for", "async for")];
    for i := 0 to |loops|
      invariant i == 0 ==> ret == head
      invariant i == 1 ==> ret == head + LoopPiece(LoopOf(options, "for"), "for")
      invariant i == 2 ==> ret == head + LoopPiece(LoopOf(options, "for"), "for") + LoopPiece(LoopOf(options, "async-for"), "async for")
    {
      var (forType, render) := loops[i];
      ghost var before := ret;
      if forType in options {
        var name := Value(options, forType);
        if IsBlank(name) {
          name := "...";
        }
        ret := ret + (render + " " + name + " in ");
      }
      assert ret == before + LoopPiece(LoopOf(options, forType), render);
    }
  }

  /** The pieces of a rendered signature. The name and argument list come
      from the host's own handle_signature. */
  datatype SigPart =
    | DescAnnotation(text: string)
    | DescAddname(text: string)
    | DescName(text: string)
    | DescParameterList(text: string)

  /** The ` as X` annotations for the value-carrying context-manager
      options in `names`, in that order; U+00A0 keeps the space visible. */
  function AsSuffixes(options: OptionMap, names: seq<string>): seq<SigPart>
  {
    if names == [] then []
    else
      var name := names[|names| - 1];
      AsSuffixes(options, names[..|names| - 1])
      + (if !IsBlank(Value(options, name)) then [DescAnnotation("\U{00A0}as " + Value(options, name))] else [])
  }

  const ContextManagerOptions: seq<string> := ["with", "async-with"]

  /** One more name adds its annotation, if any, at the end. */
  lemma AsSuffixesStep(options: OptionMap, names: seq<string>, i: nat)
    requires i < |names|
    ensures AsSuffixes(options, names[..i + 1]) == AsSuffixes(options, names[..i])
              + (if !IsBlank(Value(options, names[i])) then [DescAnnotation("\U{00A0}as " + Value(options, names[i]))] else [])
  {
    assert names[..i + 1][..i] == names[..i];
  }

  /** The prefix annotation, when there is a prefix, then the "@". */
  function HeadParts(prefix: string, decorator: bool): seq<SigPart>
  {
    (if prefix != "" then [DescAnnotation(prefix)] else [])
    + (if decorator then [DescAddname("@")] else [])
  }

  lemma HeadPartsThenHost(prefix: string, decorator: bool, host: seq<SigPart>, marked: seq<SigPart>, parts: seq<SigPart>)
    requires marked == (if decorator then [DescAddname("@")] else []) + host
    requires parts == (if prefix != "" then [DescAnnotation(prefix)] else []) + marked
    ensures parts == HeadParts(prefix, decorator) + host
  {
  }

  /** What handle_signature puts before the host's nodes. */
  function SignatureHead(options: OptionMap, objtype: string): seq<SigPart>
  {
    HeadParts(SignaturePrefix(options, objtype), MarksDecorator(options, objtype))
  }

  /** The signature node's children after handle_signature, given those the
      host left in it. */
  function RenderedSignature(options: OptionMap, objtype: string, host: seq<SigPart>): seq<SigPart>
  {
    SignatureHead(options, objtype) + host + AsSuffixes(options, ContextManagerOptions)
  }

  /** A docutils node's list of children. */
  class SignatureNode {
    var children: seq<SigPart>

    constructor (initial: seq<SigPart>)
      ensures children == initial
    {
      children := initial;
    }

    /** `node.insert(0, part)`. */
    method InsertFirst(part: SigPart)
      modifies this
      ensures children == [part] + old(children)
    {
      children := [part] + children;
    }

    /** `node += part`. */
    method Append(part: SigPart)
      modifies this
      ensures children == old(children) + [part]
    {
      children := children + [part];
    }
  }

  /** handle_signature, after the host's part: insert "@", then the prefix
      in front of it, then append the ` as X` annotations (AppendSuffixes). */
  method HandleSignature(options: OptionMap, objtype: string, signode: SignatureNode)
    modifies signode
    ensures signode.children == RenderedSignature(options, objtype, old(signode.children))
  {
    ghost var host := signode.children;
    if "decorator" in options || objtype in ["decorator", "decoratormethod"] {
      signode.InsertFirst(DescAddname("@"));
    }
    ghost var marked := signode.children;
    assert marked == (if MarksDecorator(options, objtype) then [DescAddname("@")] else []) + host;
    var prefix := GetSignaturePrefix(options, objtype);
    if prefix != "" {
      signode.InsertFirst(DescAnnotation(prefix));
    }
    HeadPartsThenHost(prefix, MarksDecorator(options, objtype), host, marked, signode.children);
    AppendSuffixes(options, signode);
  }

  /** The suffix loop of handle_signature: an ` as X` annotation for each
      context-manager option with a non-blank value. */
  method AppendSuffixes(options: OptionMap, signode: SignatureNode)
    modifies signode
    ensures signode.children == old(signode.children) + AsSuffixes(options, ContextManagerOptions)
  {
    ghost var front := signode.children;
    var names := ["with", "async-with"];
    for i := 0 to |names|
      invariant signode.children == front + AsSuffixes(options, names[..i])
    {
      var value := Value(options, names[i]);
      if !IsBlank(value) {
        signode.Append(DescAnnotation("\U{00A0}as " + value));
      }
      AsSuffixesStep(options, names, i);
    }
    assert names[..|names|] == ContextManagerOptions;
  }

  // ---------------------------------------------------------------------
  // Properties of the rendering

  /** The prefix text is empty exactly when none of its conditions holds. */
  lemma TextEmptyExactlyWhenNoCondition(c: PrefixConditions)
    ensures PrefixText(c) == "" <==> c == PrefixConditions(false, false, false, false, false, None, None, false)
  {
    var p := PrefixText(c);
    assert |p| >= |LoopPiece(c.forLoop, "for")| + |LoopPiece(c.asyncForLoop, "async for")|;
  }

  /** The prefix is empty exactly when none of its eight conditions holds. */
  lemma PrefixEmptyExactlyWhenNoCondition(options: OptionMap, objtype: string)
    ensures SignaturePrefix(options, objtype) == "" ==>
              && "abstractmethod" !in options && "staticmethod" !in options && "classmethod" !in options
              && objtype != "staticmethod" && objtype != "classmethod"
              && "with" !in options && "async-with" !in options
              && "for" !in options && "async-for" !in options && "async" !in options
    ensures (&& "abstractmethod" !in options && "staticmethod" !in options && "classmethod" !in options
             && objtype != "staticmethod" && objtype != "classmethod"
             && "with" !in options && "async-with" !in options
             && "for" !in options && "async-for" !in options && "async" !in options)
            ==> SignaturePrefix(options, objtype) == ""
  {
    TextEmptyExactlyWhenNoCondition(ConditionsOf(options, objtype));
  }

  /** A non-empty prefix ends with a space, so it never runs into the "@" or
      the name that follows it. */
  lemma PrefixEndsWithSpace(options: OptionMap, objtype: string)
    ensures SignaturePrefix(options, objtype) != "" ==>
              SignaturePrefix(options, objtype)[|SignaturePrefix(options, objtype)| - 1] == ' '
  {
    var c := ConditionsOf(options, objtype);
    var p := PrefixText(c);
    var q := p[..|p| - |Piece(c.awaited, "await ")|];
    assert p == q + Piece(c.awaited, "await ");
  }

  /** `s` is empty or its second character is not 'b'. */
  predicate NoBAtTwo(s: string)
  {
    s == "" || (|s| >= 2 && s[1] != 'b')
  }

  lemma NoBAtTwoConcat(a: string, b: string)
    requires NoBAtTwo(a) && NoBAtTwo(b)
    ensures NoBAtTwo(a + b)
  {
    if a == "" {
      assert a + b == b;
    } else {
      assert (a + b)[1] == a[1];
    }
  }

  /** `s` is empty or its last-but-one character is not 't'. */
  predicate NoTBeforeLast(s: string)
  {
    s == "" || (|s| >= 2 && s[|s| - 2] != 't')
  }

  lemma NoTBeforeLastConcat(a: string, b: string)
    requires NoTBeforeLast(a) && NoTBeforeLast(b)
    ensures NoTBeforeLast(a + b)
  {
    if b == "" {
      assert a + b == a;
    } else {
      assert (a + b)[|a + b| - 2] == b[|b| - 2];
    }
  }

  lemma LoopPieceShape(loop: Option<string>, render: string)
    requires render == "for" || render == "async for"
    ensures NoBAtTwo(LoopPiece(loop, render))
    ensures NoTBeforeLast(LoopPiece(loop, render))
  {
    if loop.Some? {
      var f := LoopPiece(loop, render);
      assert f == render + (" " + loop.value + " in ");
      assert f[1] == render[1];
      assert f[|f| - 2] == 'n';
    }
  }

  lemma PrefixKept(a: string, b: string, n: nat)
    requires n <= |a|
    ensures (a + b)[..n] == a[..n]
  {
  }

  lemma TextOpensWithAbstractMethod(c: PrefixConditions)
    requires c.abstractMethod
    ensures var p := PrefixText(c);
            |p| >= 15 && p[..15] == "abstractmethod "
  {
    var s0 := Piece(c.abstractMethod, "abstractmethod ");
    var t1 := s0 + Piece(c.staticMethod, "staticmethod ");
    var t2 := t1 + Piece(c.classMethod, "classmethod ");
    var t3 := t2 + Piece(c.withCm, "with ");
    var t4 := t3 + Piece(c.asyncWithCm, "async with ");
    var t5 := t4 + LoopPiece(c.forLoop, "for");
    var t6 := t5 + LoopPiece(c.asyncForLoop, "async for");
    assert PrefixText(c) == t6 + Piece(c.awaited, "await ");
    PrefixKept(s0, Piece(c.staticMethod, "staticmethod "), 15);
    PrefixKept(t1, Piece(c.classMethod, "classmethod "), 15);
    PrefixKept(t2, Piece(c.withCm, "with "), 15);
    PrefixKept(t3, Piece(c.asyncWithCm, "async with "), 15);
    PrefixKept(t4, LoopPiece(c.forLoop, "for"), 15);
    PrefixKept(t5, LoopPiece(c.asyncForLoop, "async for"), 15);
    PrefixKept(t6, Piece(c.awaited, "await "), 15);
  }

  lemma TextWithoutAbstractMethod(c: PrefixConditions)
    requires !c.abstractMethod
    ensures NoBAtTwo(PrefixText(c))
  {
    var t1 := Piece(c.staticMethod, "staticmethod ");
    var t2 := t1 + Piece(c.classMethod, "classmethod ");
    var t3 := t2 + Piece(c.withCm, "with ");
    var t4 := t3 + Piece(c.asyncWithCm, "async with ");
    var t5 := t4 + LoopPiece(c.forLoop, "for");
    var t6 := t5 + LoopPiece(c.asyncForLoop, "async for");
    assert Piece(c.abstractMethod, "abstractmethod ") + t1 == t1;
    assert PrefixText(c) == t6 + Piece(c.awaited, "await ");
    LoopPieceShape(c.forLoop, "for");
    LoopPieceShape(c.asyncForLoop, "async for");
    NoBAtTwoConcat(t1, Piece(c.classMethod, "classmethod "));
    NoBAtTwoConcat(t2, Piece(c.withCm, "with "));
    NoBAtTwoConcat(t3, Piece(c.asyncWithCm, "async with "));
    NoBAtTwoConcat(t4, LoopPiece(c.forLoop, "for"));
    NoBAtTwoConcat(t5, LoopPiece(c.asyncForLoop, "async for"));
    NoBAtTwoConcat(t6, Piece(c.awaited, "await "));
  }

  /** "abstractmethod " opens the prefix exactly when the option is given. */
  lemma AbstractMethodComesFirst(options: OptionMap, objtype: string)
    ensures var p := SignaturePrefix(options, objtype);
            "abstractmethod" in options <==> |p| >= 15 && p[..15] == "abstractmethod "
  {
    var c := ConditionsOf(options, objtype);
    if c.abstractMethod {
      TextOpensWithAbstractMethod(c);
    } else {
      TextWithoutAbstractMethod(c);
      OpensWithoutB(PrefixText(c));
    }
  }

  /** Text with no 'b' in second place does not open with "abstractmethod ". */
  lemma OpensWithoutB(s: string)
    ensures NoBAtTwo(s) ==> !(|s| >= 15 && s[..15] == "abstractmethod ")
  {
    if |s| >= 15 && s[..15] == "abstractmethod " {
      assert s[1] == s[..15][1];
    }
  }

  /** Text with no 't' in last-but-one place does not close with "await ". */
  lemma ClosesWithoutT(s: string)
    ensures NoTBeforeLast(s) ==> !(|s| >= 6 && s[|s| - 6..] == "await ")
  {
    if |s| >= 6 && s[|s| - 6..] == "await " {
      assert s[|s| - 2] == s[|s| - 6..][4];
    }
  }

  lemma TextClosesWithAwait(c: PrefixConditions)
    requires c.awaited
    ensures var p := PrefixText(c);
            |p| >= 6 && p[|p| - 6..] == "await "
  {
    var p := PrefixText(c);
    var rest := p[..|p| - 6];
    assert p == rest + "await ";
  }

  lemma TextWithoutAwait(c: PrefixConditions)
    requires !c.awaited
    ensures NoTBeforeLast(PrefixText(c))
  {
    var t0 := Piece(c.abstractMethod, "abstractmethod ");
    var t1 := t0 + Piece(c.staticMethod, "staticmethod ");
    var t2 := t1 + Piece(c.classMethod, "classmethod ");
    var t3 := t2 + Piece(c.withCm, "with ");
    var t4 := t3 + Piece(c.asyncWithCm, "async with ");
    var t5 := t4 + LoopPiece(c.forLoop, "for");
    var t6 := t5 + LoopPiece(c.asyncForLoop, "async for");
    assert PrefixText(c) == t6 + Piece(c.awaited, "await ");
    assert t6 + Piece(c.awaited, "await ") == t6;
    LoopPieceShape(c.forLoop, "for");
    LoopPieceShape(c.asyncForLoop, "async for");
    NoTBeforeLastConcat(t0, Piece(c.staticMethod, "staticmethod "));
    NoTBeforeLastConcat(t1, Piece(c.classMethod, "classmethod "));
    NoTBeforeLastConcat(t2, Piece(c.withCm, "with "));
    NoTBeforeLastConcat(t3, Piece(c.asyncWithCm, "async with "));
    NoTBeforeLastConcat(t4, LoopPiece(c.forLoop, "for"));
    NoTBeforeLastConcat(t5, LoopPiece(c.asyncForLoop, "async for"));
  }

  /** "await " closes the prefix exactly when `async` is given. */
  lemma AwaitComesLast(options: OptionMap, objtype: string)
    ensures var p := SignaturePrefix(options, objtype);
            "async" in options <==> |p| >= 6 && p[|p| - 6..] == "await "
  {
    var c := ConditionsOf(options, objtype);
    if c.awaited {
      TextClosesWithAwait(c);
    } else {
      TextWithoutAwait(c);
      ClosesWithoutT(PrefixText(c));
    }
  }

  /** The "@" is shown exactly when no argument list is needed. */
  lemma DecoratorMarkExactlyWithoutArglist(options: OptionMap, objtype: string)
    ensures DescAddname("@") in SignatureHead(options, objtype) <==> !NeedsArglist(options, objtype)
  {
  }

  /** The suffixes: one ` as X` per context-manager option with a non-blank
      value, `with` before `async-with`. */
  lemma AsSuffixesOfContextManagers(options: OptionMap)
    ensures AsSuffixes(options, ContextManagerOptions) ==
              (if !IsBlank(Value(options, "with")) then [DescAnnotation("\U{00A0}as " + Value(options, "with"))] else [])
              + (if !IsBlank(Value(options, "async-with")) then [DescAnnotation("\U{00A0}as " + Value(options, "async-with"))] else [])
  {
    var w := if !IsBlank(Value(options, "with")) then [DescAnnotation("\U{00A0}as " + Value(options, "with"))] else [];
    var aw := if !IsBlank(Value(options, "async-with")) then [DescAnnotation("\U{00A0}as " + Value(options, "async-with"))] else [];
    assert ContextManagerOptions[..1] == ["with"];
    assert ["with"][..0] == [];
    assert AsSuffixes(options, ["with"]) == AsSuffixes(options, []) + w;
    assert AsSuffixes(options, ContextManagerOptions) == AsSuffixes(options, ["with"]) + aw;
  }

  /** The ` as X` annotations: at most two, each starting " as ". */
  lemma AsSuffixesShape(options: OptionMap)
    ensures var tail := AsSuffixes(options, ContextManagerOptions);
            && |tail| <= 2
            && forall j :: 0 <= j < |tail| ==> tail[j].DescAnnotation? && |tail[j].text| > 3 && tail[j].text[..4] == "\U{00A0}as "
  {
    AsSuffixesOfContextManagers(options);
  }

  /** A rendered signature keeps the host's parts unchanged, after a head of
      at most two parts. */
  lemma SignatureKeepsHost(options: OptionMap, objtype: string, host: seq<SigPart>)
    ensures var r := RenderedSignature(options, objtype, host);
            var k := |SignatureHead(options, objtype)|;
            && k <= 2
            && k + |host| <= |r|
            && r[k..k + |host|] == host
  {
    var r := RenderedSignature(options, objtype, host);
    var head := SignatureHead(options, objtype);
    var tail := AsSuffixes(options, ContextManagerOptions);
    assert r == head + host + tail;
    assert r[|head|..|head| + |host|] == host;
  }

  /** The head of a rendered signature: the prefix annotation first, exactly
      when there is a prefix, then the "@", exactly when no argument list is
      needed. */
  lemma SignatureHeadShape(options: OptionMap, objtype: string, host: seq<SigPart>)
    ensures var r := RenderedSignature(options, objtype, host);
            var k := |SignatureHead(options, objtype)|;
            && (k > 0 && r[0] == DescAnnotation(SignaturePrefix(options, objtype)) <==> SignaturePrefix(options, objtype) != "")
            && (k > 0 && r[k - 1] == DescAddname("@") <==> !NeedsArglist(options, objtype))
  {
  }

  /** After the host's parts come only ` as X` annotations, at most two. */
  lemma SignatureTailShape(options: OptionMap, objtype: string, host: seq<SigPart>)
    ensures var r := RenderedSignature(options, objtype, host);
            var k := |SignatureHead(options, objtype)|;
            && |r| - k - |host| <= 2
            && forall i :: k + |host| <= i < |r| ==> r[i].DescAnnotation? && |r[i].text| > 3 && r[i].text[..4] == "\U{00A0}as "
  {
    var r := RenderedSignature(options, objtype, host);
    var head := SignatureHead(options, objtype);
    var tail := AsSuffixes(options, ContextManagerOptions);
    AsSuffixesShape(options);
    assert r == head + host + tail;
    forall i | |head| + |host| <= i < |r|
      ensures r[i].DescAnnotation? && |r[i].text| > 3 && r[i].text[..4] == "\U{00A0}as "
    {
      assert r[i] == tail[i - |head| - |host|];
    }
  }

  /** `text` of every part, in order: what the reader sees. */
  function Text(parts: seq<SigPart>): string
  {
    if parts == [] then "" else parts[0].text + Text(parts[1..])
  }
}
