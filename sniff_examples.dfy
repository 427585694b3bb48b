/** The unit-test cases of test_sniff_options
    (tests/test_sphinxcontrib_trio.py:22-125), with each test object written
    out as the chain of objects sniff_options sees. */
module SniffExamples {
  import opened Wrappers
  import opened Options
  import opened Sniffing

  /** The code objects of contextlib's and contextlib2's contextmanager
      helpers, the two members of CM_CODES. */
  const ContextlibCode: CodeId := 0
  const Contextlib2Code: CodeId := 1
  const CmCodes: set<CodeId> := {ContextlibCode, Contextlib2Code}

  /** An object on which no probe fires and which links to nothing. */
  const Blank: Node := Node(false, false, false, false, false, false, None, false, false, None, None)

  /** A plain function object with its own code object. */
  function PlainFunction(code: CodeId): Node
  {
    Blank.(code := Some(code))
  }

  /** A `def`-defined function, with the probes a function can answer. */
  function Function(code: CodeId, isAbstract: bool, coroutine: bool, generator: bool, wrapped: Option<Node>): Node
  {
    Blank.(isAbstract := isAbstract, isCoroutineFunction := coroutine, isGeneratorFunction := generator,
           code := Some(code), wrapped := wrapped)
  }

  /** A classmethod or staticmethod object around `f` (`__isabstractmethod__`
      is delegated to `f`; there is no `__code__`). */
  function ClassMethodOf(f: Node): Node
  {
    Blank.(isAbstract := f.isAbstract, isClassMethod := true, func := Some(f))
  }

  function StaticMethodOf(f: Node): Node
  {
    Blank.(isAbstract := f.isAbstract, isStaticMethod := true, func := Some(f))
  }

  lemma PlainFunctionHasNoTags()
    ensures Sniff(PlainFunction(10), CmCodes) == {}
  {
    SniffFromWalk(PlainFunction(10), CmCodes, {});
  }

  lemma ClassMethodObject()
    ensures Sniff(ClassMethodOf(PlainFunction(11)), CmCodes) == {ClassMethod}
  {
    SniffFromWalk(ClassMethodOf(PlainFunction(11)), CmCodes, {});
    SniffFromWalk(PlainFunction(11), CmCodes, {ClassMethod});
  }

  lemma StaticMethodObject()
    ensures Sniff(StaticMethodOf(PlainFunction(12)), CmCodes) == {StaticMethod}
  {
    SniffFromWalk(StaticMethodOf(PlainFunction(12)), CmCodes, {});
    SniffFromWalk(PlainFunction(12), CmCodes, {StaticMethod});
  }

  lemma AsyncClassMethod()
    ensures Sniff(ClassMethodOf(Function(13, false, true, false, None)), CmCodes) == {ClassMethod, Async}
  {
    var f := Function(13, false, true, false, None);
    SniffFromWalk(ClassMethodOf(f), CmCodes, {});
    SniffFromWalk(f, CmCodes, {ClassMethod});
  }

  lemma AbstractFunction()
    ensures Sniff(Function(14, true, false, false, None), CmCodes) == {AbstractMethod}
  {
    SniffFromWalk(Function(14, true, false, false, None), CmCodes, {});
  }

  lemma AbstractStaticMethod()
    ensures Sniff(StaticMethodOf(Function(15, true, false, false, None)), CmCodes) == {AbstractMethod, StaticMethod}
  {
    var f := Function(15, true, false, false, None);
    SniffFromWalk(StaticMethodOf(f), CmCodes, {});
    SniffFromWalk(f, CmCodes, {AbstractMethod, StaticMethod});
  }

  lemma AbstractStaticAsyncMethod()
    ensures Sniff(StaticMethodOf(Function(16, true, true, false, None)), CmCodes) == {AbstractMethod, StaticMethod, Async}
  {
    var f := Function(16, true, true, false, None);
    SniffFromWalk(StaticMethodOf(f), CmCodes, {});
    SniffFromWalk(f, CmCodes, {AbstractMethod, StaticMethod});
  }

  lemma CoroutineFunction()
    ensures Sniff(Function(17, false, true, false, None), CmCodes) == {Async}
  {
    SniffFromWalk(Function(17, false, true, false, None), CmCodes, {});
  }

  lemma GeneratorFunction()
    ensures Sniff(Function(18, false, false, true, None), CmCodes) == {For}
  {
    SniffFromWalk(Function(18, false, false, true, None), CmCodes, {});
  }

  /** `@async_generator` returns a wrapper that reports itself as an async
      generator function and whose `__wrapped__` is the coroutine function it
      was built from; the gate hides the coroutine. */
  lemma DecoratedAsyncGenerator()
    ensures Sniff(Blank.(isAsyncGenFunction := true, code := Some(19),
                         wrapped := Some(Function(20, false, true, false, None))), CmCodes) == {AsyncFor}
  {
    var f := Function(20, false, true, false, None);
    SniffFromWalk(Blank.(isAsyncGenFunction := true, code := Some(19), wrapped := Some(f)), CmCodes, {});
    SniffFromWalk(f, CmCodes, {AsyncFor});
  }

  lemma NativeAsyncGenerator()
    ensures Sniff(Blank.(isAsyncGenFunction := true, code := Some(21)), CmCodes) == {AsyncFor}
  {
    SniffFromWalk(Blank.(isAsyncGenFunction := true, code := Some(21)), CmCodes, {});
  }

  /** `@contextmanager` (from either library) returns a helper whose code is
      in CM_CODES and whose `__wrapped__` is the generator function. */
  lemma ContextlibContextManager()
    ensures Sniff(Function(ContextlibCode, false, false, false, Some(Function(22, false, false, true, None))), CmCodes) == {With}
  {
    var g := Function(22, false, false, true, None);
    SniffFromWalk(Function(ContextlibCode, false, false, false, Some(g)), CmCodes, {});
    SniffFromWalk(g, CmCodes, {With});
  }

  lemma Contextlib2ContextManager()
    ensures Sniff(Function(Contextlib2Code, false, false, false, Some(Function(23, false, false, true, None))), CmCodes) == {With}
  {
    var g := Function(23, false, false, true, None);
    SniffFromWalk(Function(Contextlib2Code, false, false, false, Some(g)), CmCodes, {});
    SniffFromWalk(g, CmCodes, {With});
  }

  /** The explicit opt-in attributes. */
  lemma ManualContextManager()
    ensures Sniff(Blank.(code := Some(24), returnsContextManager := true), CmCodes) == {With}
  {
    SniffFromWalk(Blank.(code := Some(24), returnsContextManager := true), CmCodes, {});
  }

  lemma ManualAsyncContextManager()
    ensures Sniff(Blank.(code := Some(25), returnsAsyncContextManager := true), CmCodes) == {AsyncWith}
  {
    SniffFromWalk(Blank.(code := Some(25), returnsAsyncContextManager := true), CmCodes, {});
  }

  /** messy3 -> messy2 (a generator) -> messy1 (a coroutine) -> messy0 (a
      staticmethod object around a plain function): the outermost object's
      context-manager marker closes the gate, and the staticmethod at the
      end of the chain is still found. */
  const Messy0: Node := StaticMethodOf(PlainFunction(30))
  const Messy1: Node := Function(31, false, true, false, Some(Messy0))
  const Messy2: Node := Function(32, false, false, true, Some(Messy1))
  const Messy3: Node := Blank.(code := Some(33), returnsContextManager := true, wrapped := Some(Messy2))

  lemma MessyChain()
    ensures Sniff(Messy3, CmCodes) == {With, StaticMethod}
  {
    SniffFromWalk(Messy3, CmCodes, {});
    assert Step(Messy3, CmCodes, {}) == {With};
    SniffFromWalk(Messy2, CmCodes, {With});
    SniffFromWalk(Messy1, CmCodes, {With});
    SniffFromWalk(Messy0, CmCodes, {With});
    SniffFromWalk(PlainFunction(30), CmCodes, {With, StaticMethod});
  }

  /** The comment above EXCLUSIVE_OPTIONS says the sniffer never reports
      more than one of them, but the gate is tested once per object, so a
      single object can contribute several: a coroutine function that also
      declares `__returns_contextmanager__`, or an object that answers both
      the coroutine and the async-generator probes. */
  lemma CoroutineReturningContextManager()
    ensures Sniff(Blank.(isCoroutineFunction := true, code := Some(40), returnsContextManager := true), CmCodes) == {Async, With}
  {
    SniffFromWalk(Blank.(isCoroutineFunction := true, code := Some(40), returnsContextManager := true), CmCodes, {});
  }

  lemma CoroutineAndAsyncGenerator()
    ensures Sniff(Blank.(isCoroutineFunction := true, isAsyncGenFunction := true, code := Some(41)), CmCodes) == {Async, AsyncFor}
  {
    SniffFromWalk(Blank.(isCoroutineFunction := true, isAsyncGenFunction := true, code := Some(41)), CmCodes, {});
  }
}
