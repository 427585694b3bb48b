# sphinxcontrib-trio, modelled in Dafny

sphinxcontrib-trio is a Sphinx extension for documenting Python callables
whose nature goes beyond "function" or "method": coroutine functions,
generators, async generators, context-manager factories, abstract methods,
classmethods and staticmethods. It has two halves, and this project models
both:

- **Sniffing.** The `autofunction`/`automethod` documenters walk the
  documented object's `__wrapped__`/`__func__` chain. They collect tags from
  the object's introspectable properties (`sniff_options`). They merge those
  tags into the directive's options without overwriting values the author
  wrote (`update_with_sniffed_options`). They re-emit the options as
  directive option lines (`passthrough_option_lines`). The method documenter
  also lowers the autodoc sort key (`member_order`) of classmethods and
  staticmethods by one, which sorts them ahead of plain methods when
  members are ordered by group.
- **Rendering.** The `function`/`method` directives turn the options into a
  signature: a prefix (`abstractmethod staticmethod classmethod with async
  with for X in async for X in await`), an "@" for decorators (for which no
  empty parameter list is added when the signature has none), and ` as X` suffixes for named context managers.

Modules, one file each:

| file | module | models |
|---|---|---|
| `wrappers.dfy` | `Wrappers` | `Option` |
| `options.dfy` | `Options` | the sniffable tags, EXCLUSIVE_OPTIONS, the three option-spec tables |
| `sniff.dfy` | `Sniffing` | the object chain and sniff_options |
| `sniff_examples.dfy` | `SniffExamples` | the cases of test_sniff_options |
| `merge.dfy` | `Merging` | the options dictionary and update_with_sniffed_options |
| `signature.dfy` | `Signatures` | needs_arglist, _get_signature_prefix and handle_signature |
| `signature_examples.dfy` | `SignatureExamples` | the renderings shown in the module docstring |
| `passthrough.dfy` | `Passthrough` | passthrough_option_lines, and how its lines read back |
| `autodoc_examples.dfy` | `AutodocExamples` | the automethod renderings promised by the module docstring, from the object to the text |
| `documenters.dfy` | `Documenters` | the two autodoc documenters' import_object and add_directive_header |

How the model is built:

- **Objects.** An object on the chain is a `Node`. It holds the booleans
  that the introspection probes return for it, its code-object identity,
  and the `__wrapped__`/`__func__` links. Because `Node` is an inductive
  datatype, every chain is finite and acyclic.
- **CM_CODES.** The code objects of the contextlib and contextlib2 helpers
  come from foreign modules. They are the parameter `cmCodes`.
- **Sniffing.** The tags found on a chain are specified by a fold,
  `Sniff(obj) = SniffFrom(Walk(obj), {})`. The loop of `SniffOptions` is
  proved equal to it.
- **Reading the passthrough lines back.** `Passthrough.ParseOptionLines`
  (with `FirstColon` and `ParseOptionLine`) and `Passthrough.DirectiveOptions`
  are a reader that belongs to the model, not to the extension. They stand
  for the directive parsing the lines autodoc generates. They are the
  partner against which `PassthroughRoundTrip` shows that the emitted lines
  lose nothing. `AutodocExamples` uses them to follow an object from the
  class `__dict__` to its rendered signature.
- **Mutable state.** The options dictionary (`OptionDict`), the signature
  node (`SignatureNode`) and the two documenters are classes. Their methods
  modify their fields, and their contracts tie the new state to a function
  of the old state.

**Where the code and its comment differ.** The comment at
sphinxcontrib_trio/__init__.py:230-237 says the sniffer "never reports more
than one item" of EXCLUSIVE_OPTIONS. The code tests the gate once per
object, before that object's gated probes. So one object can contribute
several exclusive tags. Two examples:

- a coroutine function that declares `__returns_contextmanager__` reports
  async and with;
- an object that satisfies both the coroutine probe and the async-generator
  probe reports async and async-for.

`SniffExamples.CoroutineReturningContextManager` and
`SniffExamples.CoroutineAndAsyncGenerator` exhibit both cases. The model
follows the code.

What does hold is proved:

- once any exclusive tag is collected, later objects on the chain add no
  more (`Sniffing.GateStaysClosed`);
- the exclusive tags are exactly those of the first object that fires a gated
  probe (`Sniffing.ExclusiveTagsFromFirstFiringNode`);
- async and for never occur together (`Sniffing.NeverAsyncAndFor`).

A context-manager signal on a later object does not replace a generator or
coroutine tag found earlier on the chain. In the messy test chain, with
wins only because the outermost object supplies it.

## Model

| member | source | states |
|---|---|---|
| Options.TagNameInjective | sphinxcontrib_trio/__init__.py:244-268 | distinct sniffed tags are distinct option names |
| Options.Names | sphinxcontrib_trio/__init__.py:282-290 | the option names of a tag set are exactly the names of its members |
| Options.SpecKeys | sphinxcontrib_trio/__init__.py:102-121 | the keys of an option spec, in declaration order, one per entry |
| Options.SpecKeysOfTables | sphinxcontrib_trio/__init__.py:102-121 | the function spec's keys are async, decorator, with, async-with, for, async-for; the method spec adds abstractmethod, staticmethod, classmethod after them; the autodoc spec is no-auto-options |
| Options.TagsAreMethodOptions | sphinxcontrib_trio/__init__.py:111-117 | every tag the sniffer can report is a method option, and is neither no-auto-options nor decorator |
| Options.FunctionOptionsAreExclusiveTags | sphinxcontrib_trio/__init__.py:102-109 | a sniffable tag is a function option exactly when it is one of EXCLUSIVE_OPTIONS (line 238) |
| Sniffing.Walk | sphinxcontrib_trio/__init__.py:269-274 | the walk starts at the documented object |
| Sniffing.WalkFollowsLinks | sphinxcontrib_trio/__init__.py:269-274 | each object on the walk is followed by its `__wrapped__`, else its `__func__`, and the walk ends at the first object with neither |
| Sniffing.Detect | sphinxcontrib_trio/__init__.py:253-268 | the gated probes yield only exclusive tags, never async together with for (the elif), and nothing exactly when no gated probe fires |
| Sniffing.MarkedBySteps | sphinxcontrib_trio/__init__.py:244-249 | applying the three ungated probes one by one adds exactly the marks of the object |
| Sniffing.DetectedBySteps | sphinxcontrib_trio/__init__.py:254-268 | applying the gated probes one by one, in source order, adds exactly the detected tags |
| Sniffing.SniffOptions | sphinxcontrib_trio/__init__.py:240-276 | the loop returns the fold of the per-object step over the walk |
| Sniffing.SniffFromWalk | sphinxcontrib_trio/__init__.py:243-274 | one loop iteration: apply the step to the current object, then continue with the next object or stop |
| Sniffing.SniffFromAppend | sphinxcontrib_trio/__init__.py:243-274 | sniffing a chain in two parts equals sniffing it at once |
| Sniffing.SniffFromGrows | sphinxcontrib_trio/__init__.py:241-268 | tags are only ever added, never removed |
| Sniffing.SniffFromUnmarked | sphinxcontrib_trio/__init__.py:244-268 | a run of objects on which no probe fires adds nothing, and only such a run leaves an empty set empty |
| Sniffing.EmptyExactlyWhenUnmarked | sphinxcontrib_trio/__init__.py:240-276 | sniffing yields the empty set exactly when no probe fires on any object of the chain |
| Sniffing.SniffFromModifier | sphinxcontrib_trio/__init__.py:244-249 | a modifier tag is collected exactly when some object carries it or it was already there |
| Sniffing.ModifiersAreNotGated | sphinxcontrib_trio/__init__.py:244-249 | abstractmethod, classmethod and staticmethod are reported exactly when some object on the chain carries them, whatever the gate does |
| Sniffing.GateStaysClosed | sphinxcontrib_trio/__init__.py:252-253 | once an exclusive tag is collected, the exclusive part of the result never changes again |
| Sniffing.FirstDetection | sphinxcontrib_trio/__init__.py:253-268 | the first non-empty detection on a chain is empty only if every detection is, and is the detection of some object |
| Sniffing.SniffFromExclusive | sphinxcontrib_trio/__init__.py:252-268 | the exclusive part of a fold is what was already collected, else the first non-empty detection |
| Sniffing.ExclusiveTagsFromFirstFiringNode | sphinxcontrib_trio/__init__.py:238-268 | the exclusive tags reported are exactly those of the first object on the chain on which a gated probe fires |
| Sniffing.LaterNodesAddNoExclusive | sphinxcontrib_trio/__init__.py:252-253 | extending a walked prefix that already holds an exclusive tag leaves the exclusive tags unchanged |
| Sniffing.NeverAsyncAndFor | sphinxcontrib_trio/__init__.py:254-259 | the result never holds both async and for |
| SniffExamples.PlainFunctionHasNoTags | tests/test_sphinxcontrib_trio.py:27-29 | a plain function sniffs to nothing |
| SniffExamples.ClassMethodObject | tests/test_sphinxcontrib_trio.py:35-37 | a classmethod object sniffs to {classmethod} |
| SniffExamples.StaticMethodObject | tests/test_sphinxcontrib_trio.py:39-41 | a staticmethod object sniffs to {staticmethod} |
| SniffExamples.AsyncClassMethod | tests/test_sphinxcontrib_trio.py:43-50 | a classmethod around a coroutine function sniffs to {classmethod, async} |
| SniffExamples.AbstractFunction | tests/test_sphinxcontrib_trio.py:52-55 | an abstract method sniffs to {abstractmethod} |
| SniffExamples.AbstractStaticMethod | tests/test_sphinxcontrib_trio.py:57-68 | a staticmethod around an abstract method sniffs to {abstractmethod, staticmethod} |
| SniffExamples.AbstractStaticAsyncMethod | tests/test_sphinxcontrib_trio.py:62-70 | the same around a coroutine function adds async |
| SniffExamples.CoroutineFunction | tests/test_sphinxcontrib_trio.py:72-74 | a coroutine function sniffs to {async} |
| SniffExamples.GeneratorFunction | tests/test_sphinxcontrib_trio.py:76-78 | a generator function sniffs to {for} |
| SniffExamples.DecoratedAsyncGenerator | tests/test_sphinxcontrib_trio.py:80-83 | an async_generator-decorated coroutine sniffs to {async-for}: the wrapper fires first and closes the gate |
| SniffExamples.NativeAsyncGenerator | tests/test_sphinxcontrib_trio.py:16-20 | a native async generator sniffs to {async-for} |
| SniffExamples.ContextlibContextManager | tests/test_sphinxcontrib_trio.py:88-92 | a contextlib.contextmanager wrapper sniffs to {with} |
| SniffExamples.Contextlib2ContextManager | tests/test_sphinxcontrib_trio.py:94-97 | a contextlib2.contextmanager wrapper sniffs to {with} |
| SniffExamples.ManualContextManager | tests/test_sphinxcontrib_trio.py:99-102 | `__returns_contextmanager__` gives {with} |
| SniffExamples.ManualAsyncContextManager | tests/test_sphinxcontrib_trio.py:104-107 | `__returns_acontextmanager__` gives {async-with} |
| SniffExamples.MessyChain | tests/test_sphinxcontrib_trio.py:109-125 | the messy chain sniffs to {with, staticmethod}: the intermediate generator and coroutine are ignored |
| SniffExamples.CoroutineReturningContextManager | sphinxcontrib_trio/__init__.py:230-268 | one object can report two exclusive tags, async and with, contrary to the comment |
| SniffExamples.CoroutineAndAsyncGenerator | sphinxcontrib_trio/__init__.py:253-261 | one object can report both async and async-for |
| Merging.Merge | sphinxcontrib_trio/__init__.py:282-290 | the merged keys are the old keys plus the sniffed names; old values are kept; new keys map to None |
| Merging.OptionDict.SetDefault | sphinxcontrib_trio/__init__.py:290 | `setdefault`: an existing key keeps its value and is returned; a missing key is set to the default |
| Merging.MergeOneMore | sphinxcontrib_trio/__init__.py:282-290 | one more setdefault extends the merge by that tag |
| Merging.UpdateWithSniffedOptions | sphinxcontrib_trio/__init__.py:278-290 | the dictionary becomes the update of its old contents: unchanged under no-auto-options, else merged with the sniffed tags |
| Merging.MergeIdempotent | sphinxcontrib_trio/__init__.py:282-290 | merging the same tags twice equals merging them once |
| Merging.NoAutoOptionsLeavesDictUnchanged | sphinxcontrib_trio/__init__.py:279-280 | with no-auto-options present the options are left as they are |
| Merging.UpdateKeepsExplicitValues | sphinxcontrib_trio/__init__.py:281-290 | without no-auto-options, the keys become the old keys plus the sniffed names, explicit values survive, and added keys are None |
| Merging.UpdateIdempotent | sphinxcontrib_trio/__init__.py:278-290 | updating an already updated dictionary changes nothing |
| Merging.ExplicitForSurvivesSniffedFor | sphinxcontrib_trio/__init__.py:283-290 | an explicit `:for: row` on a generator stays "row" |
| Signatures.LoopName | sphinxcontrib_trio/__init__.py:174-178 | the loop variable is the option's value, or "..." when that is blank; it is never blank |
| Signatures.GetSignaturePrefix | sphinxcontrib_trio/__init__.py:143-181 | the built prefix is the eight fragments in fixed order, each present exactly when its option or legacy directive name is |
| Signatures.AddLoopForms | sphinxcontrib_trio/__init__.py:173-178 | the loop appends the for fragment, then the async-for fragment, each present exactly when its option is and naming the value or "..." |
| Signatures.SignatureNode.InsertFirst | sphinxcontrib_trio/__init__.py:195 | `signode.insert(0, part)` puts the part in front |
| Signatures.SignatureNode.Append | sphinxcontrib_trio/__init__.py:209 | `signode += part` puts the part at the end |
| Signatures.HandleSignature | sphinxcontrib_trio/__init__.py:189-211 | the node's children become the prefix annotation (if any), the "@" (for decorators), the host's nodes, then the ` as X` annotations |
| Signatures.AppendSuffixes | sphinxcontrib_trio/__init__.py:203-209 | the loop appends the " as X" annotations of the context-manager options, in order, after the children already there |
| Signatures.HeadPartsThenHost | sphinxcontrib_trio/__init__.py:192-201 | inserting "@" and then the prefix at the front gives prefix, "@", host in that order |
| Signatures.TextEmptyExactlyWhenNoCondition | sphinxcontrib_trio/__init__.py:143-181 | the prefix text is empty exactly when all of its eight conditions are false |
| Signatures.PrefixEmptyExactlyWhenNoCondition | sphinxcontrib_trio/__init__.py:143-181 | the prefix is empty exactly when none of its eight conditions holds |
| Signatures.PrefixEndsWithSpace | sphinxcontrib_trio/__init__.py:143-181 | a non-empty prefix ends with a space |
| Signatures.LoopPieceShape | sphinxcontrib_trio/__init__.py:173-178 | a for/async-for fragment neither has "b" in second place nor "t" just before its end, so it can be mistaken neither for "abstractmethod " nor for "await " |
| Signatures.TextOpensWithAbstractMethod | sphinxcontrib_trio/__init__.py:145-146 | with abstractmethod, the prefix starts with "abstractmethod ", whatever follows |
| Signatures.TextWithoutAbstractMethod | sphinxcontrib_trio/__init__.py:163-181 | without abstractmethod, no later fragment puts a "b" in second place, so none makes the prefix look as if it opened with "abstractmethod " |
| Signatures.TextClosesWithAwait | sphinxcontrib_trio/__init__.py:179-181 | with async, the prefix ends with "await " |
| Signatures.TextWithoutAwait | sphinxcontrib_trio/__init__.py:144-178 | without async, no earlier fragment ends in "t" followed by one character, so none makes the prefix look as if it closed with "await " |
| Signatures.AbstractMethodComesFirst | sphinxcontrib_trio/__init__.py:145-181 | the prefix starts with "abstractmethod " exactly when abstractmethod is given |
| Signatures.AwaitComesLast | sphinxcontrib_trio/__init__.py:179-181 | the prefix ends with "await " exactly when async is given |
| Signatures.NeedsArglist | sphinxcontrib_trio/__init__.py:128-134 | true exactly when `decorator` is not an option and the directive is neither `decorator` nor `decoratormethod` |
| Signatures.DecoratorMarkExactlyWithoutArglist | sphinxcontrib_trio/__init__.py:128-134 | the "@" is rendered exactly when needs_arglist is false |
| Signatures.AsSuffixesOfContextManagers | sphinxcontrib_trio/__init__.py:204-209 | the suffixes are " as <with>" then " as <async-with>", each exactly when that value is non-blank |
| Signatures.AsSuffixesShape | sphinxcontrib_trio/__init__.py:203-209 | there are at most two suffixes, and each is an annotation starting with a no-break space and "as " |
| Signatures.SignatureKeepsHost | sphinxcontrib_trio/__init__.py:189-211 | the host's parts appear unchanged, in order, right after a head of at most two parts |
| Signatures.SignatureHeadShape | sphinxcontrib_trio/__init__.py:192-201 | the rendering opens with the prefix annotation exactly when the prefix is non-empty, and the head ends with "@" exactly when no argument list is needed |
| Signatures.SignatureTailShape | sphinxcontrib_trio/__init__.py:203-209 | after the host's parts come at most two parts, each an " as " annotation |
| SignatureExamples.ContextManagerFunction | sphinxcontrib_trio/__init__.py:13-22 | `:with: bar` on `foo(x, y)` reads "with foo(x, y) as bar" |
| SignatureExamples.ContextManagerFunctionWithoutName | sphinxcontrib_trio/__init__.py:22-23 | without the optional name there is no " as" part |
| SignatureExamples.AbstractAsyncClassMethod | sphinxcontrib_trio/__init__.py:27-38 | abstractmethod, classmethod and async read "abstractmethod classmethod await foo()" |
| SignatureExamples.AbstractStaticDecorator | sphinxcontrib_trio/__init__.py:40-56 | abstractmethod, staticmethod and decorator on `foo` read "abstractmethod staticmethod @foo", and needs_arglist is false, so no empty parameter list is added |
| SignatureExamples.IteratorWithoutName | sphinxcontrib_trio/__init__.py:173-178 | `:for:` without a value renders "for ... in " |
| SignatureExamples.AsyncIteratorWithName | sphinxcontrib_trio/__init__.py:173-178 | `:async-for: row` renders "async for row in " |
| SignatureExamples.LegacyStaticMethodDirective | sphinxcontrib_trio/__init__.py:147-164 | the `.. staticmethod::` directive alone renders "staticmethod " |
| Passthrough.PassthroughOptionLines | sphinxcontrib_trio/__init__.py:292-300 | the emitted lines are one line per spec option present, in spec order: `   :name: value`, or `   :name:` for None |
| Passthrough.ParseOptionLineRoundTrip | sphinxcontrib_trio/__init__.py:296-299 | a line for a name without ':' reads back as that name and value |
| Passthrough.Present | sphinxcontrib_trio/__init__.py:294-296 | the present options are named in the spec and carry their values |
| Passthrough.PresentIsComplete | sphinxcontrib_trio/__init__.py:294-296 | every spec option that is present is listed |
| Passthrough.PassthroughRoundTrip | sphinxcontrib_trio/__init__.py:292-300 | the emitted lines read back to exactly the present options, in order, with their values, None kept distinct from "" |
| Passthrough.SpecNamesHaveNoColon | sphinxcontrib_trio/__init__.py:102-117 | no option name of either spec contains ':', so the round trip applies to both tables |
| Passthrough.Restrict | sphinxcontrib_trio/__init__.py:294-296 | the options kept are exactly those whose names are in the spec, with their values |
| Passthrough.DirectiveSeesPresent | sphinxcontrib_trio/__init__.py:292-300 | the dictionary rebuilt from the present options is exactly the documenter's options restricted to the spec |
| Passthrough.PassthroughReachesDirective | sphinxcontrib_trio/__init__.py:292-300 | the emitted lines read back without error, and the generated directive's options are exactly the documenter's options that the spec names, with their values |
| AutodocExamples.ReachesMethodDirective | sphinxcontrib_trio/__init__.py:331-333 | options that are all method options reach the generated method directive unchanged |
| AutodocExamples.AbstractAsyncClassMethodTags | sphinxcontrib_trio/__init__.py:240-276 | the classmethod object around an abstract coroutine function sniffs to abstractmethod, classmethod and async |
| AutodocExamples.AutoAbstractAsyncClassMethod | sphinxcontrib_trio/__init__.py:36-39 | `.. automethod:: foo` on an abstract async classmethod renders "abstractmethod classmethod await foo()", the same as the written directive |
| AutodocExamples.AbstractStaticDecoratorTags | sphinxcontrib_trio/__init__.py:240-276 | the staticmethod object around an abstract function sniffs to abstractmethod and staticmethod |
| AutodocExamples.AutoAbstractStaticDecorator | sphinxcontrib_trio/__init__.py:48-56 | `.. automethod:: foo` with `:decorator:` on an abstract staticmethod renders "abstractmethod staticmethod @foo" |
| Documenters.FunctionDocumenter.constructor | sphinxcontrib_trio/__init__.py:302-309 | a documenter starts with the given options and no lines |
| Documenters.FunctionDocumenter.ImportObject | sphinxcontrib_trio/__init__.py:315-320 | the options become a fresh dictionary holding the sniffed update of the old ones |
| Documenters.FunctionDocumenter.AddDirectiveHeader | sphinxcontrib_trio/__init__.py:311-313 | the header lines are followed by the function options' passthrough lines |
| Documenters.MethodDocumenter.constructor | sphinxcontrib_trio/__init__.py:322-329 | a documenter starts with the given options, no lines and the given member order |
| Documenters.MethodDocumenter.ImportObject | sphinxcontrib_trio/__init__.py:335-358 | the options become the sniffed update of a fresh copy, and member_order drops by one exactly when they then include classmethod or staticmethod |
| Documenters.MethodDocumenter.AddDirectiveHeader | sphinxcontrib_trio/__init__.py:331-333 | the header lines are followed by the method options' passthrough lines |
| Documenters.SniffedBindingLowersMemberOrder | sphinxcontrib_trio/__init__.py:350-357 | a classmethod or staticmethod object anywhere on the chain puts classmethod or staticmethod into the options, so member_order is lowered by one, unless no-auto-options is given |
| Documenters.NoAutoOptionsKeepsExplicitOrder | sphinxcontrib_trio/__init__.py:279-280 | with no-auto-options, member_order is lowered exactly when classmethod or staticmethod was given explicitly |

## Left out

- `setup` and extension registration (sphinxcontrib_trio/__init__.py:364-386): Sphinx plumbing. It registers the directives and documenters. It deletes the built-in `autofunction`/`automethod` entries from `directives._directives` (:375-376) so that the overrides raise no warning. It also copies `VariableCommentPicker.visit_FunctionDef` to `visit_AsyncFunctionDef` when missing (:381-384), so that `bysource` member ordering sees async functions.
- The introspection primitives (`inspect.iscoroutinefunction`, `isinstance`, `getattr` of the dunder markers, `isasyncgenfunction`): each is a boolean field of `Node`. Their Python-version behaviour is not modelled.
- The construction of CM_CODES from contextlib and contextlib2 (sphinxcontrib_trio/__init__.py:90-100): it is the parameter `cmCodes`.
- Cyclic `__wrapped__` chains: `Node` is inductive, so every chain is finite. On a cyclic chain the Python loop never ends.
- The host classes' own `handle_signature`, `import_object`, `add_directive_header` and `add_line`: they are Sphinx code. The host's signature nodes are the `host` argument, its header lines the `header` argument, the imported object the `obj` argument. A method missing from the class `__dict__` (where `get` returns None) is an object on which no probe fires.
- The `get_signature_prefix` override returning "" (sphinxcontrib_trio/__init__.py:186-187): there is nothing in it to state.
- The documenters' `priority` and the merged `option_spec` dictionaries of the Sphinx classes (sphinxcontrib_trio/__init__.py:213-223, 303-309, 323-329): only the three tables this extension defines are modelled.
- The option converters `directives.flag` and `directives.unchanged`: they are the `OptionKind` tag only. A flag given a value, and the conversions themselves, are docutils behaviour.
- `Signatures.Value`: a `None` value of `with`, `async-with`, `for` or `async-for` is read as "". In Python, `None.strip()` would raise. The directive never sees such a `None`. A value sniffing defaults in lives only in the documenter's dictionary. It reaches the directive as a re-parsed `   :for:` line, to which docutils' `unchanged` gives "". The attribute-error path is not modelled.
- `Passthrough.DirectiveOptions`: the directive's dictionary is rebuilt from the (name, value) pairs as read. docutils' option converters are not applied, so an option line without a value stays `None` instead of becoming "" under `unchanged`. `Signatures.Value` reads both alike, so the rendering is the same. Duplicate option lines, which docutils rejects, never arise from the passthrough.
- `Options(self.options)` copies the dictionary. In the model, `ImportObject` makes a fresh `OptionDict` with the same entries. Aliasing with autodoc's shared dictionary is modelled only as "the documenter now owns a fresh object".
- The end-to-end Sphinx build test (tests/test_sphinxcontrib_trio.py:134 onwards): it runs sphinx-build and inspects HTML.
- Iteration order: `update_with_sniffed_options` iterates over a Python set, and the model's loop picks any remaining tag. The result does not depend on the order.
