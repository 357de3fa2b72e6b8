/** Loading the global-variable configuration from a JSON document.

    The `"global-groups"` key chooses the enabled groups and is read first;
    the `"globals"` key declares or removes individual globals. Problems
    with the shape of the document (a value of the wrong type) are reported
    and loading goes on; a JSON syntax error reports one error pointing at
    the start of the input and stops loading. Errors go to an append-only
    log. */
module ConfigurationLoading {
  import opened Wrappers
  import opened Lex
  import opened Json
  import opened Configuration

  datatype ConfigError =
    | JsonSyntaxError(where: SourceSpan)
    | GlobalGroupsTypeMismatch(value: SourceSpan)
    | GlobalGroupsGroupTypeMismatch(group: SourceSpan)
    | GlobalsTypeMismatch(value: SourceSpan)
    | GlobalsDescriptorTypeMismatch(descriptor: SourceSpan)
    | GlobalsDescriptorShadowableTypeMismatch(value: SourceSpan)
    | GlobalsDescriptorWritableTypeMismatch(value: SourceSpan)

  /** The two properties a global's descriptor object may set. */
  datatype DescriptorProperty = Shadowable | Writable

  function PropertyKey(p: DescriptorProperty): string
  {
    match p
    case Shadowable => "shadowable"
    case Writable => "writable"
  }

  function PropertyTypeMismatch(p: DescriptorProperty, where: SourceSpan): ConfigError
  {
    match p
    case Shadowable => GlobalsDescriptorShadowableTypeMismatch(where)
    case Writable => GlobalsDescriptorWritableTypeMismatch(where)
  }

  /** The state after a loading step, whether the step could finish (it
      cannot once it meets malformed JSON), and the error log. */
  datatype Loaded = Loaded(ok: bool, config: Config, log: seq<ConfigError>)

  /** A boolean read from a descriptor, with the error log after reading it. */
  datatype Fetched = Fetched(value: bool, log: seq<ConfigError>)

  /** The error for malformed JSON: an empty span at the very start of the
      input, since the parser gives no location. */
  const SyntaxErrorAtStart := JsonSyntaxError(SourceSpan(0, 0))

  /** None of `errors` is a JSON syntax error. */
  predicate NoSyntaxError(errors: seq<ConfigError>)
  {
    forall i :: 0 <= i < |errors| ==> !errors[i].JsonSyntaxError?
  }

  /** Appending to a log in two steps is appending once. Dafny knows this
      unaided; calling it names the step so the loaders' proofs stay cheap. */
  lemma AppendAssociates(log: seq<ConfigError>, first: seq<ConfigError>, second: seq<ConfigError>)
    ensures log + first + second == log + (first + second)
  {
    forall i | 0 <= i < |log| + |first| + |second|
      ensures (log + first + second)[i] == (log + (first + second))[i]
    {
    }
  }

  /** Two steps that each report no syntax error report none together. */
  lemma NoSyntaxErrorChain(log: seq<ConfigError>, middle: seq<ConfigError>, end: seq<ConfigError>)
    requires log <= middle <= end
    requires NoSyntaxError(middle[|log|..]) && NoSyntaxError(end[|middle|..])
    ensures NoSyntaxError(end[|log|..])
  {
    forall i | 0 <= i < |end| - |log|
      ensures !end[|log|..][i].JsonSyntaxError?
    {
      if |log| + i < |middle| {
        assert end[|log|..][i] == middle[|log|..][i];
      } else {
        assert end[|log|..][i] == end[|middle|..][|log| + i - |middle|];
      }
    }
  }

  /** A step with no syntax error followed by a step whose only syntax error
      is its last entry: together, too, only the last entry is one. */
  lemma NoSyntaxErrorChainBeforeLast(log: seq<ConfigError>, middle: seq<ConfigError>, end: seq<ConfigError>)
    requires log <= middle <= end && |middle| < |end|
    requires NoSyntaxError(middle[|log|..]) && NoSyntaxError(end[|middle|..|end| - 1])
    ensures NoSyntaxError(end[|log|..|end| - 1])
  {
    var before := end[|log|..|end| - 1];
    var tail := end[|middle|..|end| - 1];
    forall i | 0 <= i < |before|
      ensures !before[i].JsonSyntaxError?
    {
      if |log| + i < |middle| {
        assert before[i] == middle[|log|..][i];
      } else {
        assert before[i] == tail[|log| + i - |middle|];
      }
    }
  }

  /** What a section loader promises about the log it extends: it fails
      exactly when it reports a syntax error, and then that error is its
      last entry and the only one. */
  predicate SectionLog(log: seq<ConfigError>, r: Loaded)
  {
    && log <= r.log
    && (r.ok <==> NoSyntaxError(r.log[|log|..]))
    && (!r.ok ==> |r.log| > |log| && r.log[|r.log| - 1] == SyntaxErrorAtStart)
    && (!r.ok ==> NoSyntaxError(r.log[|log|..|r.log| - 1]))
  }

  /** Running a second section only when the first succeeded keeps the
      promise of a single section. */
  lemma SectionsInOrder(log: seq<ConfigError>, first: Loaded, second: Loaded)
    requires SectionLog(log, first)
    requires SectionLog(first.log, second)
    ensures SectionLog(log, if first.ok then second else first)
  {
    if first.ok {
      var r := second;
      if r.ok {
        NoSyntaxErrorChain(log, first.log, r.log);
      } else {
        assert r.log[|log|..][|r.log| - 1 - |log|] == SyntaxErrorAtStart;
        NoSyntaxErrorChainBeforeLast(log, first.log, r.log);
      }
    }
  }

  predicate Malformed(lookup: JsonLookup)
  {
    lookup.Present? && lookup.value.data.JMalformed?
  }

  /** Reports a JSON syntax error: exactly one error is appended, pointing
      at an empty span at the start of the input. */
  function ReportJsonError(log: seq<ConfigError>): (r: seq<ConfigError>)
    ensures |r| == |log| + 1 && r[..|log|] == log
    ensures r[|log|].JsonSyntaxError? && r[|log|].where.begin == 0 && r[|log|].where.end == 0
  {
    log + [SyntaxErrorAtStart]
  }

  /** Reporting a syntax error right away leaves it the only new entry. */
  lemma ReportedAlone(log: seq<ConfigError>)
    ensures var errors := ReportJsonError(log);
            && !NoSyntaxError(errors[|log|..])
            && errors[|errors| - 1] == SyntaxErrorAtStart
            && NoSyntaxError(errors[|log|..|errors| - 1])
  {
    var errors := ReportJsonError(log);
    assert errors[|log|..][0].JsonSyntaxError?;
    assert errors[|log|..|errors| - 1] == [];
  }

  /** Reads an optional boolean property of a descriptor. A missing property
      gives the default; a boolean gives itself; a value of another type is
      reported and gives the default; malformed JSON fails the read without
      reporting anything. */
  function GetBoolOrDefault(field: JsonLookup, defaultValue: bool, property: DescriptorProperty,
                            log: seq<ConfigError>): (r: Option<Fetched>)
    ensures r.None? <==> Malformed(field)
    ensures r.Some? && field.Present? && field.value.data.JBool? ==> r.value == Fetched(field.value.data.b, log)
    ensures field.Missing? ==> r == Some(Fetched(defaultValue, log))
    ensures r.Some? && field.Present? && !field.value.data.JBool? ==>
              r.value.value == defaultValue
              && r.value.log == log + [PropertyTypeMismatch(property, SpanOfJsonValue(field.value))]
  {
    match field
    case Missing => Some(Fetched(defaultValue, log))
    case Present(v) =>
      match v.data
      case JMalformed => None
      case JBool(b) => Some(Fetched(b, log))
      case _ => Some(Fetched(defaultValue, log + [PropertyTypeMismatch(property, SpanOfJsonValue(v))]))
  }

  /** Some entry of `items` is the string `name`. */
  predicate NamesGroup(items: seq<JsonValue>, name: string)
  {
    exists i :: 0 <= i < |items| && items[i].data == JString(name)
  }

  /** One more entry names a group exactly when the earlier entries or the
      new one name it. */
  lemma NamesGroupStep(init: seq<JsonValue>, last: JsonValue, name: string)
    ensures NamesGroup(init + [last], name) <==> NamesGroup(init, name) || last.data == JString(name)
  {
    var items := init + [last];
    if NamesGroup(items, name) {
      var i :| 0 <= i < |items| && items[i].data == JString(name);
      if i < |init| {
        assert init[i] == items[i];
      }
    }
    if NamesGroup(init, name) {
      var i :| 0 <= i < |init| && init[i].data == JString(name);
      assert items[i] == init[i];
    }
    assert items[|init|] == last;
  }

  /** One more entry of a `"global-groups"` array on top of a run: each
      group is enabled afterwards exactly when it was before or the entry is
      its name. */
  lemma GroupFlagsStep(c: Config, init: seq<JsonValue>, last: JsonValue, before: Config, after: Config)
    requires before.addBrowser == (c.addBrowser || NamesGroup(init, "browser"))
    requires before.addEcmascript == (c.addEcmascript || NamesGroup(init, "ecmascript"))
    requires before.addNodeJs == (c.addNodeJs || NamesGroup(init, "node.js"))
    requires after == if last.data.JString? then AddGlobalGroup(before, last.data.s).1 else before
    ensures after.addBrowser == (c.addBrowser || NamesGroup(init + [last], "browser"))
    ensures after.addEcmascript == (c.addEcmascript || NamesGroup(init + [last], "ecmascript"))
    ensures after.addNodeJs == (c.addNodeJs || NamesGroup(init + [last], "node.js"))
  {
    NamesGroupStep(init, last, "browser");
    NamesGroupStep(init, last, "ecmascript");
    NamesGroupStep(init, last, "node.js");
  }

  /** The errors reported for the entries of a `"global-groups"` array that
      are neither strings nor malformed, in order. */
  function GroupMismatches(items: seq<JsonValue>): seq<ConfigError>
    decreases |items|
  {
    if |items| == 0 then []
    else
      var last := items[|items| - 1];
      GroupMismatches(items[..|items| - 1])
      + if last.data.JString? || last.data.JMalformed? then []
        else [GlobalGroupsGroupTypeMismatch(SpanOfJsonValue(last))]
  }

  /** Where loading a `"global-groups"` array stops: the position of its
      first malformed entry, or its length when there is none. */
  function StopIndex(items: seq<JsonValue>): (k: nat)
    ensures k <= |items|
    ensures forall j :: 0 <= j < k ==> !items[j].data.JMalformed?
    ensures k < |items| ==> items[k].data.JMalformed?
    decreases |items|
  {
    if |items| == 0 then 0
    else if items[0].data.JMalformed? then 0
    else
      var k := StopIndex(items[1..]);
      assert forall j :: 1 <= j < k + 1 ==> items[j] == items[1..][j - 1];
      1 + k
  }

  /** One more entry on top of a run: loading stops where it stopped in the
      run, else at the new entry if it is malformed, else nowhere. */
  lemma StopIndexStep(init: seq<JsonValue>, last: JsonValue)
    ensures StopIndex(init + [last])
            == if StopIndex(init) < |init| then StopIndex(init)
               else if last.data.JMalformed? then |init| else |init| + 1
  {
    var items := init + [last];
    var k := StopIndex(items);
    var j := StopIndex(init);
    assert forall i :: 0 <= i < |init| ==> items[i] == init[i];
    assert items[|init|] == last;
    if j < |init| {
      assert items[j].data.JMalformed?;
    }
  }

  /** Handles the entries of a `"global-groups"` array in order: a string
      enables the group it names (an unknown name is ignored), any other
      value is reported. Only the group flags change. */
  function LoadGroupArray(c: Config, items: seq<JsonValue>, log: seq<ConfigError>): (r: Loaded)
    ensures r.config.globals == c.globals && r.config.globalsToRemove == c.globalsToRemove
    ensures log <= r.log
    ensures NoSyntaxError(r.log[|log|..])
    ensures r.ok <==> forall i :: 0 <= i < |items| ==> !items[i].data.JMalformed?
    ensures r.ok ==> r.config.addBrowser == (c.addBrowser || NamesGroup(items, "browser"))
    ensures r.ok ==> r.config.addEcmascript == (c.addEcmascript || NamesGroup(items, "ecmascript"))
    ensures r.ok ==> r.config.addNodeJs == (c.addNodeJs || NamesGroup(items, "node.js"))
    ensures r.ok ==> r.log == log + GroupMismatches(items)
    decreases |items|
  {
    if |items| == 0 then Loaded(true, c, log)
    else
      var init := items[..|items| - 1];
      var last := items[|items| - 1];
      var prev := LoadGroupArray(c, init, log);
      assert items == init + [last];
      if !prev.ok then
        var i :| 0 <= i < |init| && init[i].data.JMalformed?;
        assert items[i] == init[i];
        prev
      else
        assert forall i :: 0 <= i < |init| ==> items[i] == init[i];
        assert forall i :: 0 <= i < |items| - 1 ==> !items[i].data.JMalformed?;
        var errors := if last.data.JString? || last.data.JMalformed? then [] else [GlobalGroupsGroupTypeMismatch(SpanOfJsonValue(last))];
        assert GroupMismatches(items) == GroupMismatches(init) + errors;
        AppendAssociates(log, GroupMismatches(init), errors);
        NoSyntaxErrorChain(log, prev.log, prev.log + errors);
        var next := if last.data.JString? then AddGlobalGroup(prev.config, last.data.s).1 else prev.config;
        GroupFlagsStep(c, init, last, prev.config, next);
        Loaded(!last.data.JMalformed?, next, prev.log + errors)
  }

  /** The flags and the log of `r` are what loading the group names in
      `items`, all of them well formed, gives when starting from `c` and
      `log`. */
  predicate LoadedAsGroups(r: Loaded, c: Config, items: seq<JsonValue>, log: seq<ConfigError>)
  {
    && r.config.addBrowser == (c.addBrowser || NamesGroup(items, "browser"))
    && r.config.addEcmascript == (c.addEcmascript || NamesGroup(items, "ecmascript"))
    && r.config.addNodeJs == (c.addNodeJs || NamesGroup(items, "node.js"))
    && r.log == log + GroupMismatches(items)
  }

  /** One more entry after a failure changes nothing, and a malformed entry
      after a successful prefix fails without touching flags or log. */
  lemma LoadGroupArrayLastStep(c: Config, init: seq<JsonValue>, last: JsonValue, log: seq<ConfigError>)
    ensures var prev := LoadGroupArray(c, init, log);
            var r := LoadGroupArray(c, init + [last], log);
            && (!prev.ok ==> r == prev)
            && (prev.ok && last.data.JMalformed? ==> r == Loaded(false, prev.config, prev.log))
  {
    var items := init + [last];
    assert items[..|items| - 1] == init;
    var prev := LoadGroupArray(c, init, log);
    if prev.ok && last.data.JMalformed? {
      assert prev.log + [] == prev.log;
    }
  }

  /** An array without malformed entries loads all of its entries. */
  lemma CleanArrayLoadsAll(c: Config, items: seq<JsonValue>, log: seq<ConfigError>)
    requires forall i :: 0 <= i < |items| ==> !items[i].data.JMalformed?
    ensures LoadedAsGroups(LoadGroupArray(c, items, log), c, items, log)
  {
  }

  /** A malformed entry after well-formed ones leaves what the well-formed
      ones gave. */
  lemma MalformedAfterCleanPrefix(c: Config, init: seq<JsonValue>, last: JsonValue, log: seq<ConfigError>)
    requires forall i :: 0 <= i < |init| ==> !init[i].data.JMalformed?
    requires last.data.JMalformed?
    ensures LoadedAsGroups(LoadGroupArray(c, init + [last], log), c, init, log)
  {
    LoadGroupArrayLastStep(c, init, last, log);
  }

  /** Once an array has stopped, one more entry changes neither the result
      nor the entries that count. */
  lemma StopCarriesOver(c: Config, init: seq<JsonValue>, last: JsonValue, log: seq<ConfigError>)
    requires StopIndex(init) < |init|
    requires LoadedAsGroups(LoadGroupArray(c, init, log), c, init[..StopIndex(init)], log)
    ensures LoadedAsGroups(LoadGroupArray(c, init + [last], log), c, (init + [last])[..StopIndex(init + [last])], log)
  {
    StopIndexStep(init, last);
    LoadGroupArrayLastStep(c, init, last, log);
    var k := StopIndex(init);
    assert (init + [last])[..k] == init[..k];
  }

  /** Loading a `"global-groups"` array stops at its first malformed entry:
      whether or not it fails, the flags and the log are what the entries
      before that point give. */
  lemma {:induction false} LoadGroupArrayStops(c: Config, items: seq<JsonValue>, log: seq<ConfigError>)
    ensures LoadedAsGroups(LoadGroupArray(c, items, log), c, items[..StopIndex(items)], log)
    decreases |items|
  {
    var k := StopIndex(items);
    if k == |items| {
      assert items[..k] == items;
      CleanArrayLoadsAll(c, items, log);
    } else {
      var init := items[..|items| - 1];
      var last := items[|items| - 1];
      assert items == init + [last];
      if StopIndex(init) < |init| {
        LoadGroupArrayStops(c, init, log);
        StopCarriesOver(c, init, last, log);
      } else {
        StopIndexStep(init, last);
        assert items[..k] == init;
        MalformedAfterCleanPrefix(c, init, last, log);
      }
    }
  }

  /** Interprets the value of `"global-groups"`: `true` keeps the groups as
      they are, `false` disables all of them, an array enables exactly the
      groups it names before its first malformed entry, and any other type
      is reported and changes nothing. Loading fails only on malformed JSON.
      Declared and removed globals never change. */
  function LoadGlobalGroupsFromJson(c: Config, v: JsonValue, log: seq<ConfigError>): (r: Loaded)
    ensures r.config.globals == c.globals && r.config.globalsToRemove == c.globalsToRemove
    ensures log <= r.log
    ensures NoSyntaxError(r.log[|log|..])
    ensures r.ok <==> !v.data.JMalformed?
                      && (v.data.JArray? ==> forall i :: 0 <= i < |v.data.items| ==> !v.data.items[i].data.JMalformed?)
    ensures v.data == JBool(true) ==> r == Loaded(true, c, log)
    ensures v.data == JBool(false) ==>
              r.log == log && !r.config.addBrowser && !r.config.addEcmascript && !r.config.addNodeJs
    ensures v.data.JArray? && r.ok ==>
              && r.config.addBrowser == NamesGroup(v.data.items, "browser")
              && r.config.addEcmascript == NamesGroup(v.data.items, "ecmascript")
              && r.config.addNodeJs == NamesGroup(v.data.items, "node.js")
              && r.log == log + GroupMismatches(v.data.items)
    ensures v.data.JNull? || v.data.JNumber? || v.data.JObject? || v.data.JString? ==>
              r == Loaded(true, c, log + [GlobalGroupsTypeMismatch(SpanOfJsonValue(v))])
    ensures v.data.JMalformed? ==> r == Loaded(false, c, log)
    ensures v.data.JArray? ==>
              var k := StopIndex(v.data.items);
              && r.config.addBrowser == NamesGroup(v.data.items[..k], "browser")
              && r.config.addEcmascript == NamesGroup(v.data.items[..k], "ecmascript")
              && r.config.addNodeJs == NamesGroup(v.data.items[..k], "node.js")
              && r.log == log + GroupMismatches(v.data.items[..k])
  {
    match v.data
    case JMalformed => Loaded(false, c, log)
    case JBool(b) => Loaded(true, if b then c else ResetGlobalGroups(c), log)
    case JArray(items) =>
      LoadGroupArrayStops(ResetGlobalGroups(c), items, log);
      LoadGroupArray(ResetGlobalGroups(c), items, log)
    case _ => Loaded(true, c, log + [GlobalGroupsTypeMismatch(SpanOfJsonValue(v))])
  }

  /** A `"globals"` entry can be handled without meeting malformed JSON. */
  predicate EntryLoads(f: JsonField)
  {
    match f.value.data
    case JMalformed => false
    case JObject(descriptor) =>
      !Malformed(FindField(descriptor, "shadowable")) && !Malformed(FindField(descriptor, "writable"))
    case _ => true
  }

  /** The value a descriptor gives a property: the boolean written there, or
      true when it is missing or not a boolean. */
  function DescriptorFlag(descriptor: seq<JsonField>, property: DescriptorProperty): bool
  {
    var lookup := FindField(descriptor, PropertyKey(property));
    if lookup.Present? && lookup.value.data.JBool? then lookup.value.data.b else true
  }

  /** The attributes a `"globals"` entry declares its name with, if it
      declares it: `true` declares the defaults, an object declares what its
      properties say. */
  function Declares(f: JsonField): Option<GlobalAttrs>
  {
    match f.value.data
    case JBool(b) => if b then Some(DefaultAttrs) else None
    case JObject(descriptor) =>
      Some(GlobalAttrs(DescriptorFlag(descriptor, Shadowable), DescriptorFlag(descriptor, Writable)))
    case _ => None
  }

  /** What the last entry that declares `name` declares it with. */
  function LastDeclaration(fields: seq<JsonField>, name: string): Option<GlobalAttrs>
    decreases |fields|
  {
    if |fields| == 0 then None
    else
      var last := fields[|fields| - 1];
      if last.key == name && Declares(last).Some? then Declares(last)
      else LastDeclaration(fields[..|fields| - 1], name)
  }

  /** `first` when it is present, otherwise `second`. */
  function Overlay(first: Option<GlobalAttrs>, second: Option<GlobalAttrs>): Option<GlobalAttrs>
  {
    if first.Some? then first else second
  }

  /** One more entry on top of a run of entries: the name it declares takes
      its attributes, every other name keeps what the run gave it. */
  lemma DeclarationStep(init: seq<JsonField>, last: JsonField, base: GlobalSet, before: GlobalSet, after: GlobalSet)
    requires forall n :: AttrsOf(before, n) == Overlay(LastDeclaration(init, n), AttrsOf(base, n))
    requires forall n :: AttrsOf(after, n)
                      == if n == last.key && Declares(last).Some? then Declares(last) else AttrsOf(before, n)
    ensures forall n :: AttrsOf(after, n) == Overlay(LastDeclaration(init + [last], n), AttrsOf(base, n))
  {
    forall n
      ensures AttrsOf(after, n) == Overlay(LastDeclaration(init + [last], n), AttrsOf(base, n))
    {
      assert (init + [last])[..|init|] == init;
    }
  }

  /** The names whose entry is `false`, in order. */
  function RemovedNames(fields: seq<JsonField>): seq<string>
    decreases |fields|
  {
    if |fields| == 0 then []
    else
      var last := fields[|fields| - 1];
      RemovedNames(fields[..|fields| - 1]) + if last.value.data == JBool(false) then [last.key] else []
  }

  function PropertyErrors(descriptor: seq<JsonField>, property: DescriptorProperty): seq<ConfigError>
  {
    var lookup := FindField(descriptor, PropertyKey(property));
    if lookup.Present? && !lookup.value.data.JBool? && !lookup.value.data.JMalformed?
    then [PropertyTypeMismatch(property, SpanOfJsonValue(lookup.value))]
    else []
  }

  /** The errors one `"globals"` entry reports. */
  function EntryErrors(f: JsonField): seq<ConfigError>
  {
    match f.value.data
    case JBool(_) => []
    case JMalformed => []
    case JObject(descriptor) => PropertyErrors(descriptor, Shadowable) + PropertyErrors(descriptor, Writable)
    case _ => [GlobalsDescriptorTypeMismatch(SpanOfJsonValue(f.value))]
  }

  /** The errors the `"globals"` entries report, in order. */
  function DescriptorErrors(fields: seq<JsonField>): seq<ConfigError>
    decreases |fields|
  {
    if |fields| == 0 then []
    else DescriptorErrors(fields[..|fields| - 1]) + EntryErrors(fields[|fields| - 1])
  }

  /** One more `"globals"` entry on top of a run: its name joins the
      removal list after the run's, when its value is `false`. */
  lemma RemovedNamesStep(before: seq<string>, init: seq<JsonField>, last: JsonField, after: seq<string>)
    requires after == before + RemovedNames(init) + if last.value.data == JBool(false) then [last.key] else []
    ensures after == before + RemovedNames(init + [last])
  {
    assert (init + [last])[..|init|] == init;
  }

  /** One more `"globals"` entry on top of a run: its errors follow the
      run's. */
  lemma DescriptorErrorsStep(log: seq<ConfigError>, init: seq<JsonField>, last: JsonField, after: seq<ConfigError>)
    requires after == log + DescriptorErrors(init) + EntryErrors(last)
    ensures after == log + DescriptorErrors(init + [last])
  {
    var fields := init + [last];
    assert fields[..|fields| - 1] == init;
    var run := DescriptorErrors(init);
    var errors := EntryErrors(last);
    assert DescriptorErrors(fields) == run + errors;
    AppendAssociates(log, run, errors);
  }

  /** Reads one property of a descriptor object, true by default. What it
      gives is `DescriptorFlag`, and what it reports is `PropertyErrors`. */
  function ReadDescriptorProperty(descriptor: seq<JsonField>, property: DescriptorProperty,
                                  log: seq<ConfigError>): (r: Option<Fetched>)
    ensures r.None? <==> Malformed(FindField(descriptor, PropertyKey(property)))
    ensures r.Some? ==> r.value.value == DescriptorFlag(descriptor, property)
    ensures r.Some? ==> r.value.log == log + PropertyErrors(descriptor, property)
    ensures r.Some? ==> NoSyntaxError(r.value.log[|log|..])
  {
    var r := GetBoolOrDefault(FindField(descriptor, PropertyKey(property)), true, property, log);
    assert r.Some? ==> r.value.log[|log|..] == PropertyErrors(descriptor, property);
    assert property.Shadowable? || property.Writable?;
    r
  }

  /** Handles a `"globals"` entry whose value is an object: the name is
      declared with the defaults, then the `"shadowable"` and `"writable"`
      properties are read in that order, stopping at malformed JSON. */
  function LoadDescriptor(c: Config, key: string, descriptor: seq<JsonField>, log: seq<ConfigError>): (r: Loaded)
    ensures SameGroups(r.config, c) && r.config.globalsToRemove == c.globalsToRemove
    ensures log <= r.log
    ensures NoSyntaxError(r.log[|log|..])
    ensures r.ok <==> !Malformed(FindField(descriptor, "shadowable")) && !Malformed(FindField(descriptor, "writable"))
    ensures r.ok ==> r.log == log + PropertyErrors(descriptor, Shadowable) + PropertyErrors(descriptor, Writable)
    ensures r.ok ==> r.config.globals
                     == c.globals[key := GlobalAttrs(DescriptorFlag(descriptor, Shadowable), DescriptorFlag(descriptor, Writable))]
  {
    // The variable is declared with the defaults first, and each property
    // read overwrites its attributes in place.
    var shadowable := ReadDescriptorProperty(descriptor, Shadowable, log);
    if shadowable.None? then Loaded(false, AddGlobalVariable(c, key), log)
    else
      var writable := ReadDescriptorProperty(descriptor, Writable, shadowable.value.log);
      if writable.None? then
        Loaded(false, c.(globals := c.globals[key := GlobalAttrs(shadowable.value.value, true)]), shadowable.value.log)
      else
        NoSyntaxErrorChain(log, shadowable.value.log, writable.value.log);
        Loaded(true, c.(globals := c.globals[key := GlobalAttrs(shadowable.value.value, writable.value.value)]),
               writable.value.log)
  }

  /** Handles one `"globals"` entry: `true` declares the name, `false` puts
      it on the removal list, an object declares it with the attributes the
      object gives, and any other type is reported. A value whose type
      cannot be read fails the entry before anything changes. */
  function LoadGlobal(c: Config, f: JsonField, log: seq<ConfigError>): (r: Loaded)
    ensures SameGroups(r.config, c)
    ensures log <= r.log
    ensures NoSyntaxError(r.log[|log|..])
    ensures r.ok <==> EntryLoads(f)
    ensures f.value.data.JMalformed? ==> r == Loaded(false, c, log)
    ensures r.ok ==> r.log == log + EntryErrors(f)
    ensures r.ok ==> r.config.globalsToRemove
                     == c.globalsToRemove + if f.value.data == JBool(false) then [f.key] else []
    ensures r.ok ==> forall n :: AttrsOf(r.config.globals, n)
                              == if n == f.key && Declares(f).Some? then Declares(f) else AttrsOf(c.globals, n)
  {
    match f.value.data
    case JMalformed => Loaded(false, c, log)
    case JBool(b) =>
      if b then Loaded(true, AddGlobalVariable(c, f.key), log)
      else Loaded(true, RemoveGlobalVariable(c, f.key), log)
    case JObject(descriptor) => LoadDescriptor(c, f.key, descriptor, log)
    case _ => Loaded(true, c, log + [GlobalsDescriptorTypeMismatch(SpanOfJsonValue(f.value))])
  }

  /** Handles the entries of the `"globals"` object in order, stopping at the
      first one that meets malformed JSON. When all of them load, each name
      ends up declared as its last declaring entry says, the `false` entries
      are appended to the removal list in order, the errors are those of the
      entries in order, and the group flags never change. */
  function LoadGlobalsFromJson(c: Config, fields: seq<JsonField>, log: seq<ConfigError>): (r: Loaded)
    ensures SameGroups(r.config, c)
    ensures log <= r.log
    ensures NoSyntaxError(r.log[|log|..])
    ensures r.ok <==> forall i :: 0 <= i < |fields| ==> EntryLoads(fields[i])
    ensures r.ok ==> r.config.globalsToRemove == c.globalsToRemove + RemovedNames(fields)
    ensures r.ok ==> r.log == log + DescriptorErrors(fields)
    ensures r.ok ==> forall n :: AttrsOf(r.config.globals, n)
                              == Overlay(LastDeclaration(fields, n), AttrsOf(c.globals, n))
    decreases |fields|
  {
    if |fields| == 0 then Loaded(true, c, log)
    else
      var init := fields[..|fields| - 1];
      assert fields == init + [fields[|fields| - 1]];
      var prev := LoadGlobalsFromJson(c, init, log);
      if !prev.ok then
        assert exists i :: 0 <= i < |init| && !EntryLoads(init[i]);
        var i :| 0 <= i < |init| && !EntryLoads(init[i]);
        assert init[i] == fields[i];
        prev
      else
        var last := fields[|fields| - 1];
        var r := LoadGlobal(prev.config, last, prev.log);
        NoSyntaxErrorChain(log, prev.log, r.log);
        assert (forall i :: 0 <= i < |fields| ==> EntryLoads(fields[i]))
           <==> (forall i :: 0 <= i < |init| ==> EntryLoads(init[i])) && EntryLoads(last);
        if r.ok then
          RemovedNamesStep(c.globalsToRemove, init, last, r.config.globalsToRemove);
          DescriptorErrorsStep(log, init, last, r.log);
          DeclarationStep(init, last, c.globals, prev.config.globals, r.config.globals);
          r
        else
          r
  }

  /** Handles the lookup of `"global-groups"` in the root object: a missing
      key changes nothing, a present one is loaded, and malformed JSON is
      reported as a syntax error. Declared and removed globals never
      change. */
  function LoadGroupsSection(c: Config, groups: JsonLookup, log: seq<ConfigError>): (r: Loaded)
    ensures SectionLog(log, r)
    ensures r.config.globals == c.globals && r.config.globalsToRemove == c.globalsToRemove
    ensures groups.Missing? ==> r == Loaded(true, c, log)
    ensures groups.Present? ==> r.ok == LoadGlobalGroupsFromJson(c, groups.value, log).ok
    ensures groups.Present? ==>
              var loaded := LoadGlobalGroupsFromJson(c, groups.value, log);
              r == if loaded.ok then loaded else Loaded(false, loaded.config, loaded.log + [SyntaxErrorAtStart])
  {
    match groups
    case Missing => Loaded(true, c, log)
    case Present(v) =>
      var loaded := LoadGlobalGroupsFromJson(c, v, log);
      if loaded.ok then loaded
      else
        var r := Loaded(false, loaded.config, ReportJsonError(loaded.log));
        assert r.log[|r.log| - 1].JsonSyntaxError?;
        r
  }

  /** Handles the lookup of `"globals"` in the root object: a missing key
      changes nothing, an object is loaded, another type is reported as a
      type mismatch, and malformed JSON is reported as a syntax error. The
      group flags never change. */
  function LoadGlobalsSection(c: Config, globals: JsonLookup, log: seq<ConfigError>): (r: Loaded)
    ensures SectionLog(log, r)
    ensures SameGroups(r.config, c)
    ensures globals.Missing? ==> r == Loaded(true, c, log)
    ensures globals.Present? && !globals.value.data.JObject? && !globals.value.data.JMalformed? ==>
              r == Loaded(true, c, log + [GlobalsTypeMismatch(SpanOfJsonValue(globals.value))])
    ensures globals.Present? && globals.value.data.JObject? ==>
              var loaded := LoadGlobalsFromJson(c, globals.value.data.fields, log);
              r == if loaded.ok then loaded else Loaded(false, loaded.config, loaded.log + [SyntaxErrorAtStart])
    ensures globals.Present? && globals.value.data.JMalformed? ==> r == Loaded(false, c, log + [SyntaxErrorAtStart])
  {
    match globals
    case Missing => Loaded(true, c, log)
    case Present(v) =>
      match v.data
      case JObject(globalFields) =>
        var loaded := LoadGlobalsFromJson(c, globalFields, log);
        if loaded.ok then loaded
        else
          var r := Loaded(false, loaded.config, ReportJsonError(loaded.log));
          assert r.log[|r.log| - 1].JsonSyntaxError?;
          r
      case JMalformed =>
        var r := Loaded(false, c, ReportJsonError(log));
        assert r.log[|r.log| - 1].JsonSyntaxError?;
        r
      case _ =>
        var r := Loaded(true, c, log + [GlobalsTypeMismatch(SpanOfJsonValue(v))]);
        assert r.log[|log|..] == [GlobalsTypeMismatch(SpanOfJsonValue(v))];
        r
  }

  /** Loads the fields of a root object: `"global-groups"` first, then,
      unless that met malformed JSON, `"globals"`. */
  function LoadRootObject(c: Config, fields: seq<JsonField>, log: seq<ConfigError>): (r: Loaded)
    ensures SectionLog(log, r)
    ensures var afterGroups := LoadGroupsSection(c, FindField(fields, "global-groups"), log);
            r == if afterGroups.ok then LoadGlobalsSection(afterGroups.config, FindField(fields, "globals"), afterGroups.log)
                 else afterGroups
  {
    var afterGroups := LoadGroupsSection(c, FindField(fields, "global-groups"), log);
    var afterGlobals := LoadGlobalsSection(afterGroups.config, FindField(fields, "globals"), afterGroups.log);
    SectionsInOrder(log, afterGroups, afterGlobals);
    if afterGroups.ok then afterGlobals else afterGroups
  }

  /** Loads the global-variable configuration from a document. A document
      the parser rejects, a root that is not an object, and malformed JSON
      met while loading each report one syntax error at the start of the
      input and stop loading; `ok` says that did not happen. `"global-groups"`
      is handled before `"globals"`. */
  function LoadFromJson(c: Config, doc: JsonDocument, log: seq<ConfigError>): (r: Loaded)
    ensures log <= r.log
    ensures r.ok <==> NoSyntaxError(r.log[|log|..])
    ensures !r.ok ==> |r.log| > |log| && r.log[|r.log| - 1] == SyntaxErrorAtStart
    ensures doc.Unparsable? ==> r == Loaded(false, c, log + [SyntaxErrorAtStart])
    ensures doc.Document? && !doc.root.data.JObject? ==> r == Loaded(false, c, log + [SyntaxErrorAtStart])
    ensures doc.Document? && doc.root.data.JObject? ==>
              var groups := FindField(doc.root.data.fields, "global-groups");
              && (groups.Missing? ==> SameGroups(r.config, c))
              && (groups.Present? && !LoadGlobalGroupsFromJson(c, groups.value, log).ok ==>
                    r.config.globals == c.globals && r.config.globalsToRemove == c.globalsToRemove)
              && (FindField(doc.root.data.fields, "globals").Missing? ==>
                    r.config.globals == c.globals && r.config.globalsToRemove == c.globalsToRemove)
    ensures doc.Document? && doc.root.data.JObject? ==>
              var fields := doc.root.data.fields;
              var afterGroups := LoadGroupsSection(c, FindField(fields, "global-groups"), log);
              r == if afterGroups.ok then LoadGlobalsSection(afterGroups.config, FindField(fields, "globals"), afterGroups.log)
                   else afterGroups
    ensures !r.ok ==> NoSyntaxError(r.log[|log|..|r.log| - 1])
  {
    if doc.Unparsable? || !doc.root.data.JObject? then
      ReportedAlone(log);
      Loaded(false, c, ReportJsonError(log))
    else
      LoadRootObject(c, doc.root.data.fields, log)
  }

  /** A name a `"globals"` entry sets to `false` is on the removal list
      afterwards, so no group declares it. */
  lemma GlobalsFalseSuppressesGroups(c: Config, fields: seq<JsonField>, log: seq<ConfigError>,
                                     browserNames: seq<string>, name: string)
    requires forall i :: 0 <= i < |fields| ==> EntryLoads(fields[i])
    requires name in RemovedNames(fields)
    ensures var loaded := LoadGlobalsFromJson(c, fields, log).config;
            EffectiveGlobal(loaded, browserNames, name) == AttrsOf(loaded.globals, name)
  {
  }
}
