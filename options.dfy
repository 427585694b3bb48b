/** The option vocabulary of sphinxcontrib_trio: the eight tags that can be
    sniffed, and the three option-spec tables the directives and
    documenters accept (sphinxcontrib_trio/__init__.py:102-121, :238). */
module Options {
  import opened Wrappers

  /** One behavioural tag. The constructors are exactly the eight names
      sniff_options can add, so every sniffed set lies within the vocabulary
      by construction. */
  datatype Tag =
    | AbstractMethod | ClassMethod | StaticMethod
    | Async | For | AsyncFor | With | AsyncWith

  /** The option name a tag is stored under in an option dictionary. */
  function TagName(t: Tag): string
  {
    match t
    case AbstractMethod => "abstractmethod"
    case ClassMethod => "classmethod"
    case StaticMethod => "staticmethod"
    case Async => "async"
    case For => "for"
    case AsyncFor => "async-for"
    case With => "with"
    case AsyncWith => "async-with"
  }

  lemma TagNameInjective(s: Tag, t: Tag)
    ensures TagName(s) == TagName(t) ==> s == t
  {
  }

  /** The names of a set of tags. */
  function Names(tags: set<Tag>): (r: set<string>)
    ensures forall t :: t in tags ==> TagName(t) in r
    ensures forall k :: k in r ==> exists t :: t in tags && TagName(t) == k
  {
    set t | t in tags :: TagName(t)
  }

  /** EXCLUSIVE_OPTIONS: once one of these is in the sniffed set, the
      sniffer stops looking for any of them. */
  const Exclusive: set<Tag> := {Async, For, AsyncFor, With, AsyncWith}

  /** The tags that are not gated: they are added on every node. */
  const Modifiers: set<Tag> := {AbstractMethod, ClassMethod, StaticMethod}

  const NoAutoOptions: string := "no-auto-options"

  /** How docutils converts an option's argument: `directives.flag` takes
      none, `directives.unchanged` keeps the text. */
  datatype OptionKind = Flag | Unchanged

  /** An option spec, as an ordered table: Python dictionaries iterate in
      insertion order and passthrough_option_lines depends on that order. */
  type OptionSpec = seq<(string, OptionKind)>

  function SpecKeys(spec: OptionSpec): (r: seq<string>)
    ensures |r| == |spec|
    ensures forall i :: 0 <= i < |spec| ==> r[i] == spec[i].0
  {
    if spec == [] then [] else [spec[0].0] + SpecKeys(spec[1..])
  }

  const ExtendedFunctionOptionSpec: OptionSpec := [
    ("async", Flag),
    ("decorator", Flag),
    ("with", Unchanged),
    ("async-with", Unchanged),
    ("for", Unchanged),
    ("async-for", Unchanged)
  ]

  /** `{**extended_function_option_spec, ...}`: the function entries first,
      then the three binding/abstractness flags. The keys are new, so the
      merge is a concatenation. */
  const ExtendedMethodOptionSpec: OptionSpec := ExtendedFunctionOptionSpec + [
    ("abstractmethod", Flag),
    ("staticmethod", Flag),
    ("classmethod", Flag)
  ]

  const AutodocOptionSpec: OptionSpec := [(NoAutoOptions, Flag)]

  const FunctionKeys: seq<string> := ["async", "decorator", "with", "async-with", "for", "async-for"]
  const MethodKeys: seq<string> := FunctionKeys + ["abstractmethod", "staticmethod", "classmethod"]

  lemma SpecKeysOfTables()
    ensures SpecKeys(ExtendedFunctionOptionSpec) == FunctionKeys
    ensures SpecKeys(ExtendedMethodOptionSpec) == MethodKeys
    ensures SpecKeys(AutodocOptionSpec) == [NoAutoOptions]
  {
  }

  /** Every tag the sniffer can produce is an option the method directive
      and automethod accept; none of them is `no-auto-options` or
      `decorator`. */
  lemma TagsAreMethodOptions(t: Tag)
    ensures TagName(t) in SpecKeys(ExtendedMethodOptionSpec)
    ensures TagName(t) != NoAutoOptions && TagName(t) != "decorator"
  {
    SpecKeysOfTables();
    assert TagName(t) in MethodKeys by {
      match t
      case AbstractMethod => assert MethodKeys[6] == TagName(t);
      case StaticMethod => assert MethodKeys[7] == TagName(t);
      case ClassMethod => assert MethodKeys[8] == TagName(t);
      case Async => assert MethodKeys[0] == TagName(t);
      case With => assert MethodKeys[2] == TagName(t);
      case AsyncWith => assert MethodKeys[3] == TagName(t);
      case For => assert MethodKeys[4] == TagName(t);
      case AsyncFor => assert MethodKeys[5] == TagName(t);
    }
  }

  /** The function directive and autofunction accept exactly the gated
      tags: a sniffed abstractmethod/classmethod/staticmethod is not passed
      through for a function. */
  lemma FunctionOptionsAreExclusiveTags(t: Tag)
    ensures TagName(t) in SpecKeys(ExtendedFunctionOptionSpec) <==> t in Exclusive
  {
    SpecKeysOfTables();
    match t
    case AbstractMethod =>
    case StaticMethod =>
    case ClassMethod =>
    case Async => assert FunctionKeys[0] == TagName(t);
    case With => assert FunctionKeys[2] == TagName(t);
    case AsyncWith => assert FunctionKeys[3] == TagName(t);
    case For => assert FunctionKeys[4] == TagName(t);
    case AsyncFor => assert FunctionKeys[5] == TagName(t);
  }
}
