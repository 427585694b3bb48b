/** update_with_sniffed_options (sphinxcontrib_trio/__init__.py:278-290):
    default the sniffed tags into an option dictionary without overwriting
    what the user wrote. */
module Merging {
  import opened Wrappers
  import opened Options
  import opened Sniffing

  /** A directive's options: option name to its argument, `None` for a flag,
      or for a tag defaulted in by sniffing. */
  type OptionMap = map<string, Option<string>>

  /** The dictionary after `setdefault(name, None)` for every tag in
      `sniffed`, in any order. */
  function Merge(m: OptionMap, sniffed: set<Tag>): (r: OptionMap)
    ensures r.Keys == m.Keys + Names(sniffed)
    ensures forall k :: k in m ==> r[k] == m[k]
    ensures forall k :: k in r && k !in m ==> r[k] == None
  {
    m + map k | k in Names(sniffed) && k !in m :: None
  }

  /** What update_with_sniffed_options leaves in the dictionary. */
  function Updated(m: OptionMap, obj: Node, cmCodes: set<CodeId>): OptionMap
  {
    if NoAutoOptions in m then m else Merge(m, Sniff(obj, cmCodes))
  }

  /** A Python dict, as far as update_with_sniffed_options uses it. */
  class OptionDict {
    var entries: OptionMap

    constructor (initial: OptionMap)
      ensures entries == initial
    {
      entries := initial;
    }

    /** dict.setdefault: insert `default` under `key` unless `key` is there
        already, and return the value now stored under `key`. */
    method SetDefault(key: string, default: Option<string>) returns (value: Option<string>)
      modifies this
      ensures key in old(entries) ==> entries == old(entries) && value == old(entries)[key]
      ensures key !in old(entries) ==> entries == old(entries)[key := default] && value == default
    {
      if key in entries {
        value := entries[key];
      } else {
        entries := entries[key := default];
        value := default;
      }
    }
  }

  /** Defaulting one more tag into a merged dictionary is one setdefault. */
  lemma MergeOneMore(m: OptionMap, done: set<Tag>, t: Tag)
    ensures var cur := Merge(m, done);
            Merge(m, done + {t}) == if TagName(t) in cur then cur else cur[TagName(t) := None]
  {
    var cur := Merge(m, done);
    var next := Merge(m, done + {t});
    var name := TagName(t);
    assert Names(done + {t}) == Names(done) + {name};
    if name in cur {
      assert next.Keys == cur.Keys;
      assert forall k :: k in next ==> next[k] == cur[k];
    } else {
      assert next.Keys == cur.Keys + {name};
      assert forall k :: k in next ==> next[k] == cur[name := None][k];
    }
  }

  /** update_with_sniffed_options itself: nothing happens when the
      dictionary holds `no-auto-options`; otherwise every sniffed tag is
      defaulted in, one setdefault at a time. */
  method UpdateWithSniffedOptions(obj: Node, cmCodes: set<CodeId>, optionDict: OptionDict)
    modifies optionDict
    ensures optionDict.entries == Updated(old(optionDict.entries), obj, cmCodes)
  {
    if NoAutoOptions in optionDict.entries {
      return;
    }
    var sniffed := SniffOptions(obj, cmCodes);
    ghost var start := optionDict.entries;
    var remaining := sniffed;
    while remaining != {}
      invariant remaining <= sniffed
      invariant optionDict.entries == Merge(start, sniffed - remaining)
      decreases remaining
    {
      var attr :| attr in remaining;
      MergeOneMore(start, sniffed - remaining, attr);
      assert (sniffed - remaining) + {attr} == sniffed - (remaining - {attr});
      var _ := optionDict.SetDefault(TagName(attr), None);
      remaining := remaining - {attr};
    }
    assert sniffed - remaining == sniffed;
  }

  // ---------------------------------------------------------------------
  // Properties of the merge

  /** Merging the same tags again changes nothing. */
  lemma MergeIdempotent(m: OptionMap, sniffed: set<Tag>)
    ensures Merge(Merge(m, sniffed), sniffed) == Merge(m, sniffed)
  {
    var once := Merge(m, sniffed);
    assert Merge(once, sniffed).Keys == once.Keys;
  }

  /** With `no-auto-options` present, the dictionary is left as it was,
      whatever the object. */
  lemma NoAutoOptionsLeavesDictUnchanged(m: OptionMap, obj: Node, cmCodes: set<CodeId>)
    requires NoAutoOptions in m
    ensures Updated(m, obj, cmCodes) == m
  {
  }

  /** Explicit values survive: every key the user gave keeps its value, the
      new keys are exactly the sniffed tags not already given, and each of
      them is `None`. */
  lemma UpdateKeepsExplicitValues(m: OptionMap, obj: Node, cmCodes: set<CodeId>)
    requires NoAutoOptions !in m
    ensures Updated(m, obj, cmCodes).Keys == m.Keys + Names(Sniff(obj, cmCodes))
    ensures forall k :: k in m ==> Updated(m, obj, cmCodes)[k] == m[k]
    ensures forall k :: k in Updated(m, obj, cmCodes) && k !in m ==> Updated(m, obj, cmCodes)[k] == None
  {
  }

  /** Sniffing never introduces `no-auto-options`, so updating twice is
      updating once. */
  lemma UpdateIdempotent(m: OptionMap, obj: Node, cmCodes: set<CodeId>)
    ensures Updated(Updated(m, obj, cmCodes), obj, cmCodes) == Updated(m, obj, cmCodes)
  {
    if NoAutoOptions !in m {
      var sniffed := Sniff(obj, cmCodes);
      forall t | t in sniffed
        ensures TagName(t) != NoAutoOptions
      {
        TagsAreMethodOptions(t);
      }
      assert NoAutoOptions !in Merge(m, sniffed);
      MergeIdempotent(m, sniffed);
    }
  }

  /** An explicit `:for: row` survives a sniffed `for`. */
  lemma ExplicitForSurvivesSniffedFor()
    ensures Merge(map["for" := Some("row")], {For}) == map["for" := Some("row")]
  {
    var r := Merge(map["for" := Some("row")], {For});
    assert Names({For}) == {"for"};
    assert r.Keys == {"for"};
  }
}
