/** What the controller works out before it touches anything remote: topic lists, missing types,
    the tools plan, and the trimming the sinks do to the list they are given.
 */
module TopicPlan {
  import opened Options
  import opened Sequences

  datatype TopicInfo = TopicInfo(name: string, kind: string)

  /** A parameter value: text, or anything else the program only passes on. */
  datatype Value = Text(text: string) | Opaque(id: int)

  datatype Param = Param(name: string, value: Value)

  datatype ToolsConfig = ToolsConfig(
    enabled: bool, package: string, plugin: string, nodeName: string,
    outputTopic: string, outputType: string, params: seq<Param>)

  datatype Selection = Selection(topic: TopicInfo, tools: Option<ToolsConfig>)

  datatype Tool = Tool(
    input: string, output: string, package: string, plugin: string, nodeName: string,
    params: seq<Param>, outputType: string)

  datatype Plan = Plan(tools: seq<Tool>, sinkTopics: seq<TopicInfo>)

  datatype PlanError = MissingName | MissingPlugin

  datatype PlanResult = Planned(plan: Plan) | Refused(error: PlanError)

  // ---------------------------------------------------------------- default names

  function DropLeading(s: string, c: char): string {
    if s != [] && s[0] == c then DropLeading(s[1..], c) else s
  }

  function Sanitize(topic: string): string {
    var s := DropLeading(Replaced(topic, '/', '_'), '_');
    if s == [] then "topic" else s
  }

  /** The text behind the last ':', unless nothing stands there. */
  function AfterLastColon(s: string): string {
    var i := LastIndex(s, ':');
    if i >= 0 && i + 1 < |s| then s[i + 1..] else s
  }

  function LastIndex(s: string, c: char): (i: int)
    ensures -1 <= i < |s|
  {
    if s == [] then -1 else if s[|s| - 1] == c then |s| - 1 else LastIndex(s[..|s| - 1], c)
  }

  function DefaultNodeName(plugin: string, topic: string): string {
    Sanitize(AfterLastColon(plugin) + "_" + topic)
  }

  function DefaultOutput(input: string, nodeName: string): string {
    var prefix := if nodeName == [] then "topic_tools" else nodeName;
    var rest := WithoutSlash(input);
    if rest == [] then "/" + prefix else "/" + prefix + "/" + rest
  }

  /** A default node name is one path segment that does not start with an underscore. */
  lemma DefaultNodeNameIsSegment(plugin: string, topic: string)
    ensures var n := DefaultNodeName(plugin, topic); n != [] && n[0] != '_' && '/' !in n
  {
    var s := AfterLastColon(plugin) + "_" + topic;
    ReplacedHasNone(s, '/', '_');
    DropLeadingIsSuffix(Replaced(s, '/', '_'), '_');
  }

  lemma {:induction false} DropLeadingIsSuffix(s: string, c: char)
    ensures var r := DropLeading(s, c);
            (r == [] || r[0] != c) && (forall x :: x in r ==> x in s)
  {
    if s != [] && s[0] == c { DropLeadingIsSuffix(s[1..], c); }
  }

  /** A tool never publishes back onto its own input by default. */
  lemma DefaultOutputDiffers(input: string, nodeName: string)
    ensures DefaultOutput(input, nodeName) != input
  {
  }

  // ---------------------------------------------------------------- the tools plan

  predicate Enabled(e: Selection) {
    e.tools.Some? && e.tools.value.enabled
  }

  function EntryError(e: Selection): Option<PlanError> {
    if e.topic.name == [] then Some(MissingName)
    else if Enabled(e) && e.tools.value.plugin == [] then Some(MissingPlugin)
    else None
  }

  predicate Names(params: seq<Param>, name: string) {
    exists i :: 0 <= i < |params| && params[i].name == name
  }

  function WithTopics(params: seq<Param>, input: string, output: string): seq<Param> {
    params
    + (if Names(params, "input_topic") then [] else [Param("input_topic", Text(input))])
    + (if Names(params, "output_topic") then [] else [Param("output_topic", Text(output))])
  }

  function ToolOf(e: Selection): Tool
    requires Enabled(e)
  {
    var cfg := e.tools.value;
    var node := if cfg.nodeName == [] then DefaultNodeName(cfg.plugin, e.topic.name) else cfg.nodeName;
    var output := if cfg.outputTopic == [] then DefaultOutput(e.topic.name, node) else cfg.outputTopic;
    var kind := if cfg.outputType == [] then e.topic.kind else cfg.outputType;
    Tool(e.topic.name, output, cfg.package, cfg.plugin, node,
         WithTopics(cfg.params, e.topic.name, output), kind)
  }

  /** What the sinks subscribe to for an entry: the tool's output in place of its input. */
  function SinkTopic(e: Selection): TopicInfo {
    if Enabled(e) then TopicInfo(ToolOf(e).output, ToolOf(e).outputType) else e.topic
  }

  function BuildPlan(sel: seq<Selection>): PlanResult {
    if sel == [] then Planned(Plan([], []))
    else
      var front, e := BuildPlan(sel[..|sel| - 1]), sel[|sel| - 1];
      if front.Refused? then front
      else if EntryError(e).Some? then Refused(EntryError(e).value)
      else Planned(Plan(front.plan.tools + (if Enabled(e) then [ToolOf(e)] else []),
                        front.plan.sinkTopics + [SinkTopic(e)]))
  }

  method BuildTopicToolsPlan(sel: seq<Selection>) returns (r: PlanResult)
    ensures r == BuildPlan(sel)
  {
    hide DefaultNodeName, DefaultOutput, WithTopics;
    var tools, sinkTopics := [], [];
    var i := 0;
    while i < |sel|
      invariant 0 <= i <= |sel| && BuildPlan(sel[..i]) == Planned(Plan(tools, sinkTopics))
    {
      var entry := sel[i];
      assert sel[..i + 1][..i] == sel[..i];
      if entry.topic.name == [] {
        RefusedFront(sel, i + 1);
        return Refused(MissingName);
      }
      var sinkTopic := entry.topic;
      if entry.tools.Some? && entry.tools.value.enabled {
        if entry.tools.value.plugin == [] {
          RefusedFront(sel, i + 1);
          return Refused(MissingPlugin);
        }
        var tool := ResolveTool(entry);
        tools := tools + [tool];
        sinkTopic := TopicInfo(tool.output, if tool.outputType == [] then entry.topic.kind else tool.outputType);
      }
      assert !Enabled(entry) ==> tools + [] == tools;
      sinkTopics := sinkTopics + [sinkTopic];
      i := i + 1;
    }
    assert sel[..i] == sel;
    return Planned(Plan(tools, sinkTopics));
  }

  /** Names and types left out of a tool's configuration take their defaults. */
  method ResolveTool(entry: Selection) returns (tool: Tool)
    requires Enabled(entry)
    ensures tool == ToolOf(entry)
  {
    hide DefaultNodeName, DefaultOutput;
    var cfg := entry.tools.value;
    var node := cfg.nodeName;
    if node == [] { node := DefaultNodeName(cfg.plugin, entry.topic.name); }
    var output := cfg.outputTopic;
    if output == [] { output := DefaultOutput(entry.topic.name, node); }
    var kind := cfg.outputType;
    if kind == [] { kind := entry.topic.kind; }
    var params := CompleteParams(cfg.params, entry.topic.name, output);
    tool := Tool(entry.topic.name, output, cfg.package, cfg.plugin, node, params, kind);
  }

  method CompleteParams(given: seq<Param>, input: string, output: string) returns (params: seq<Param>)
    ensures params == WithTopics(given, input, output)
  {
    var hasInput, hasOutput := false, false;
    var i := 0;
    while i < |given|
      invariant 0 <= i <= |given|
      invariant hasInput == Names(given[..i], "input_topic")
      invariant hasOutput == Names(given[..i], "output_topic")
    {
      var name := given[i].name;
      NamesSnoc(given, i, "input_topic");
      NamesSnoc(given, i, "output_topic");
      if name == "input_topic" {
        hasInput := true;
      } else if name == "output_topic" {
        hasOutput := true;
      }
      i := i + 1;
    }
    assert given[..i] == given;
    params := given;
    assert params + [] == params;
    if !hasInput { params := params + [Param("input_topic", Text(input))]; }
    assert params + [] == params;
    if !hasOutput { params := params + [Param("output_topic", Text(output))]; }
  }

  lemma NamesSnoc(params: seq<Param>, i: nat, name: string)
    requires i < |params|
    ensures Names(params[..i + 1], name) <==> Names(params[..i], name) || params[i].name == name
  {
    if Names(params[..i + 1], name) && params[i].name != name {
      var j :| 0 <= j < i + 1 && params[..i + 1][j].name == name;
      assert params[..i][j].name == name;
    }
    if Names(params[..i], name) {
      var j :| 0 <= j < i && params[..i][j].name == name;
      assert params[..i + 1][j].name == name;
    }
    if params[i].name == name {
      assert params[..i + 1][i].name == name;
    }
  }

  lemma {:induction false} RefusedFront(sel: seq<Selection>, n: nat)
    requires n <= |sel| && BuildPlan(sel[..n]).Refused?
    ensures BuildPlan(sel) == BuildPlan(sel[..n])
  {
    if n == |sel| {
      assert sel[..n] == sel;
    } else {
      assert sel[..|sel| - 1][..n] == sel[..n];
      RefusedFront(sel[..|sel| - 1], n);
    }
  }

  /** A plan fails exactly when some entry has no name, or an enabled tool without plugin. */
  lemma {:induction false} PlanFailsIff(sel: seq<Selection>)
    ensures BuildPlan(sel).Refused? <==>
            exists i :: 0 <= i < |sel| &&
              (sel[i].topic.name == [] || (Enabled(sel[i]) && sel[i].tools.value.plugin == []))
  {
    if sel != [] {
      var n := |sel| - 1;
      PlanFailsIff(sel[..n]);
      if BuildPlan(sel[..n]).Refused? {
        var i :| 0 <= i < n && EntryError(sel[..n][i]).Some?;
        assert EntryError(sel[i]).Some?;
      } else {
        forall i | 0 <= i < n ensures EntryError(sel[i]).None? {
          assert EntryError(sel[..n][i]).None?;
        }
      }
    }
  }

  /** Sink topics stand position by position for the entries; the tools are those of the
      enabled entries, in order. */
  lemma {:induction false} PlanPositions(sel: seq<Selection>)
    requires BuildPlan(sel).Planned?
    ensures var plan := BuildPlan(sel).plan;
            && |plan.sinkTopics| == |sel|
            && (forall i :: 0 <= i < |sel| ==> plan.sinkTopics[i] == SinkTopic(sel[i]))
            && plan.tools == ToolsOf(sel)
  {
    if sel != [] {
      PlanPositions(sel[..|sel| - 1]);
      ToolsSnoc(sel);
    }
  }

  function ToolsOf(sel: seq<Selection>): seq<Tool> {
    if sel == [] then [] else (if Enabled(sel[0]) then [ToolOf(sel[0])] else []) + ToolsOf(sel[1..])
  }

  lemma {:induction false} ToolsSnoc(sel: seq<Selection>)
    requires sel != []
    ensures var n := |sel| - 1;
            ToolsOf(sel) == ToolsOf(sel[..n]) + if Enabled(sel[n]) then [ToolOf(sel[n])] else []
  {
    hide ToolOf, Enabled;
    var n := |sel| - 1;
    if n > 0 {
      ToolsSnoc(sel[1..]);
      assert sel[1..][..n - 1] == sel[..n][1..];
    }
  }

  /** Every tool is told its topics, and whatever the selection configured comes first. */
  lemma ToolKnowsItsTopics(e: Selection)
    requires Enabled(e)
    ensures var t := ToolOf(e);
            && Names(t.params, "input_topic") && Names(t.params, "output_topic")
            && e.tools.value.params <= t.params
            && SinkTopic(e).name == t.output
            && (t.output == t.input ==> e.tools.value.outputTopic == e.topic.name)
  {
    var t, given := ToolOf(e), e.tools.value.params;
    DefaultOutputDiffers(e.topic.name, t.nodeName);
    var withInput := given + if Names(given, "input_topic") then [] else [Param("input_topic", Text(t.input))];
    assert given <= withInput <= t.params;
    if Names(given, "input_topic") {
      var i :| 0 <= i < |given| && given[i].name == "input_topic";
      assert t.params[i].name == "input_topic";
    } else {
      assert t.params[|given|].name == "input_topic";
    }
    if Names(given, "output_topic") {
      var i :| 0 <= i < |given| && given[i].name == "output_topic";
      assert t.params[i].name == "output_topic";
    } else {
      assert t.params[|withInput|].name == "output_topic";
    }
  }

  /** What a tool is loaded with, field by field: the configuration, and the defaults where it is
      silent. */
  lemma ToolFields(e: Selection)
    requires Enabled(e)
    ensures var t, cfg := ToolOf(e), e.tools.value;
            && t.input == e.topic.name && t.package == cfg.package && t.plugin == cfg.plugin
            && (cfg.nodeName != [] ==> t.nodeName == cfg.nodeName)
            && (cfg.nodeName == [] ==> t.nodeName == DefaultNodeName(cfg.plugin, e.topic.name))
            && (cfg.outputTopic != [] ==> t.output == cfg.outputTopic)
            && (cfg.outputTopic == [] ==> t.output == DefaultOutput(e.topic.name, t.nodeName))
            && (cfg.outputType != [] ==> t.outputType == cfg.outputType)
            && (cfg.outputType == [] ==> t.outputType == e.topic.kind)
            && SinkTopic(e) == TopicInfo(t.output, t.outputType)
    ensures var t, given := ToolOf(e), e.tools.value.params;
            && (Names(given, "input_topic") && Names(given, "output_topic") ==> t.params == given)
            && (Names(given, "input_topic") && !Names(given, "output_topic") ==>
                  t.params == given + [Param("output_topic", Text(t.output))])
            && (!Names(given, "input_topic") && Names(given, "output_topic") ==>
                  t.params == given + [Param("input_topic", Text(e.topic.name))])
            && (!Names(given, "input_topic") && !Names(given, "output_topic") ==>
                  t.params == given + [Param("input_topic", Text(e.topic.name)),
                                       Param("output_topic", Text(t.output))])
  {
    hide Names, DefaultNodeName, DefaultOutput;
    var t, given := ToolOf(e), e.tools.value.params;
    assert given + [] == given;
    var input := [Param("input_topic", Text(e.topic.name))];
    assert given + input + [] == given + input;
  }

  /** An entry without an enabled tool reaches the sink as it is. */
  lemma PlainSinkTopic(e: Selection)
    requires e.tools.None? || !e.tools.value.enabled
    ensures SinkTopic(e) == e.topic
  {
  }

  /** The default output of a rooted topic is the topic below the tool's node name. */
  lemma DefaultOutputIs(topic: string, nodeName: string)
    requires nodeName != []
    ensures topic != [] ==> DefaultOutput("/" + topic, nodeName) == "/" + nodeName + "/" + topic
    ensures topic != [] && topic[0] != '/' ==> DefaultOutput(topic, nodeName) == "/" + nodeName + "/" + topic
    ensures DefaultOutput("/", nodeName) == DefaultOutput("", nodeName) == "/" + nodeName
    ensures DefaultOutput(topic, "") == DefaultOutput(topic, "topic_tools")
  {
    assert ("/" + topic)[1..] == topic;
  }

  /** The default node name is the plugin's class name and the topic, joined by underscores. */
  lemma DefaultNodeNameIs(space: string, name: string, topic: string)
    requires name != [] && ':' !in name && name[0] != '/' && name[0] != '_'
    ensures DefaultNodeName(space + ":" + name, topic) == Replaced(name + "_" + topic, '/', '_')
    ensures DefaultNodeName(name, topic) == Replaced(name + "_" + topic, '/', '_')
  {
    NoColon(name);
    LastColon(space, name);
    assert (space + ":" + name)[|space| + 1..] == name;
    assert (name + "_" + topic)[0] == name[0];
  }

  /** A name of nothing but slashes and underscores becomes "topic". */
  lemma NamelessTopic()
    ensures DefaultNodeName("_", "/") == "topic"
  {
    assert ("_" + "_" + "/") == "__/" && "__/"[1..] == "_/" && "_/"[1..] == "/" && "/"[1..] == "";
    assert LastIndex("_", ':') == -1;
    assert Replaced("/", '/', '_') == "_" && Replaced("_/", '/', '_') == "__" && Replaced("__/", '/', '_') == "___";
    assert "___"[1..] == "__" && "__"[1..] == "_" && "_"[1..] == "";
    assert DropLeading("_", '_') == "" && DropLeading("__", '_') == "";
  }

  lemma {:induction false} NoColon(s: string)
    requires ':' !in s
    ensures LastIndex(s, ':') == -1
  {
    if s != [] { NoColon(s[..|s| - 1]); }
  }

  lemma {:induction false} LastColon(space: string, name: string)
    requires ':' !in name
    ensures LastIndex(space + ":" + name, ':') == |space|
    decreases name
  {
    var s := space + ":" + name;
    if name != [] {
      var n := |name| - 1;
      assert s[|s| - 1] == name[n];
      assert s[..|s| - 1] == space + ":" + name[..n];
      LastColon(space, name[..n]);
    }
  }

  /** The first entry that fails decides the error. */
  lemma {:induction false} FirstError(sel: seq<Selection>, n: nat)
    requires n < |sel| && BuildPlan(sel[..n]).Planned?
    ensures sel[n].topic.name == [] ==> BuildPlan(sel) == Refused(MissingName)
    ensures sel[n].topic.name != [] && Enabled(sel[n]) && sel[n].tools.value.plugin == [] ==>
              BuildPlan(sel) == Refused(MissingPlugin)
  {
    assert sel[..n + 1][..n] == sel[..n];
    if EntryError(sel[n]).Some? { RefusedFront(sel, n + 1); }
  }

  /** Filling in types does not decide whether a selection can be planned. */
  lemma CompletedPlans(full: seq<Selection>, sel: seq<Selection>)
    requires Completes(full, sel)
    ensures BuildPlan(full).Planned? <==> BuildPlan(sel).Planned?
  {
    hide BuildPlan;
    PlanFailsIff(full);
    PlanFailsIff(sel);
    forall i | 0 <= i < |sel|
      ensures full[i].topic.name == sel[i].topic.name && full[i].tools == sel[i].tools
    {
      assert CompletesAt(full[i], sel[i]);
    }
  }

  // ---------------------------------------------------------------- missing types

  /** The type last reported for a name. */
  function LastReported(infos: seq<TopicInfo>, name: string): Option<string> {
    if infos == [] then None
    else
      var last := infos[|infos| - 1];
      if last.name == name then Some(last.kind) else LastReported(infos[..|infos| - 1], name)
  }

  /** An entry after inference; None when its type stays unknown. */
  function Inferred(e: Selection, infos: seq<TopicInfo>): Option<Selection> {
    if e.topic.kind != [] then Some(e)
    else
      var kind := LastReported(infos, e.topic.name);
      if kind.None? || kind.value == [] then None
      else Some(e.(topic := e.topic.(kind := kind.value)))
  }

  predicate NeedsLookup(sel: seq<Selection>) {
    exists i :: 0 <= i < |sel| && sel[i].topic.kind == []
  }

  /** The same entries position by position, at most with types filled in. */
  predicate Completes(full: seq<Selection>, sel: seq<Selection>) {
    |full| == |sel| && forall i :: 0 <= i < |sel| ==> CompletesAt(full[i], sel[i])
  }

  predicate CompletesAt(full: Selection, e: Selection) {
    && full.topic.name == e.topic.name && full.tools == e.tools
    && (e.topic.kind != [] ==> full.topic.kind == e.topic.kind)
  }

  lemma CompletesItself(sel: seq<Selection>)
    ensures Completes(sel, sel)
  {
  }

  lemma InferredCompletes(full: seq<Selection>, sel: seq<Selection>, infos: seq<TopicInfo>)
    requires |full| == |sel| && forall i :: 0 <= i < |sel| ==> Some(full[i]) == Inferred(sel[i], infos)
    ensures Completes(full, sel)
  {
    hide Inferred;
    forall i | 0 <= i < |sel| ensures CompletesAt(full[i], sel[i]) {
      OneCompletes(full[i], sel[i], infos);
    }
  }

  lemma OneCompletes(full: Selection, e: Selection, infos: seq<TopicInfo>)
    requires Some(full) == Inferred(e, infos)
    ensures CompletesAt(full, e)
  {
  }

  predicate AllInferred(sel: seq<Selection>, infos: seq<TopicInfo>) {
    forall i :: 0 <= i < |sel| ==> Inferred(sel[i], infos).Some?
  }

  /** Every missing type can be filled in. */
  predicate Typable(sel: seq<Selection>, reply: Option<seq<TopicInfo>>) {
    !NeedsLookup(sel) || (reply.Some? && AllInferred(sel, reply.value))
  }

  /** Types can be filled in exactly when none is missing, or the reply's last mention of each
      name without a type has one. */
  lemma TypableIff(sel: seq<Selection>, reply: Option<seq<TopicInfo>>)
    ensures Typable(sel, reply) <==>
            || (forall i :: 0 <= i < |sel| ==> sel[i].topic.kind != [])
            || (reply.Some? && forall i :: 0 <= i < |sel| && sel[i].topic.kind == [] ==>
                  exists j :: 0 <= j < |reply.value| && LastNamed(reply.value, j, sel[i].topic.name)
                              && reply.value[j].kind != [])
  {
    hide LastReported;
    if reply.Some? {
      forall i | 0 <= i < |sel|
        ensures LastReported(reply.value, sel[i].topic.name).Some? <==>
                exists j :: 0 <= j < |reply.value| && LastNamed(reply.value, j, sel[i].topic.name)
        ensures forall j :: 0 <= j < |reply.value| && LastNamed(reply.value, j, sel[i].topic.name) ==>
                  LastReported(reply.value, sel[i].topic.name) == Some(reply.value[j].kind)
      {
        LastReportedIff(reply.value, sel[i].topic.name);
      }
    }
  }

  /** The last mention of a name. */
  predicate LastNamed(infos: seq<TopicInfo>, j: nat, name: string) {
    j < |infos| && infos[j].name == name && forall k :: j < k < |infos| ==> infos[k].name != name
  }

  lemma {:induction false} LastReportedIff(infos: seq<TopicInfo>, name: string)
    ensures LastReported(infos, name).Some? <==> exists j :: 0 <= j < |infos| && LastNamed(infos, j, name)
    ensures forall j :: 0 <= j < |infos| && LastNamed(infos, j, name) ==>
              LastReported(infos, name) == Some(infos[j].kind)
  {
    if infos != [] {
      var n := |infos| - 1;
      LastReportedIff(infos[..n], name);
      if infos[n].name == name {
        assert LastNamed(infos, n, name);
      } else {
        forall j | 0 <= j < n ensures LastNamed(infos, j, name) <==> LastNamed(infos[..n], j, name) {
          assert forall k :: 0 <= k < n ==> infos[..n][k] == infos[k];
        }
      }
    }
  }

  /** Types are filled in all or nothing: success exactly when nothing is missing, or the
      introspection answered and knows every missing name. */
  method InferMissingTypes(sel: seq<Selection>, reply: Option<seq<TopicInfo>>)
    returns (r: Option<seq<Selection>>)
    ensures r.Some? <==> Typable(sel, reply)
    ensures r.Some? && !NeedsLookup(sel) ==> r.value == sel
    ensures r.Some? ==> Completes(r.value, sel) && !NeedsLookup(r.value)
    ensures r.Some? && NeedsLookup(sel) ==>
              |r.value| == |sel| && forall i :: 0 <= i < |sel| ==> Some(r.value[i]) == Inferred(sel[i], reply.value)
  {
    hide Completes;
    var needsLookup := false;
    var i := 0;
    while i < |sel|
      invariant 0 <= i <= |sel|
      invariant !needsLookup && forall j :: 0 <= j < i ==> sel[j].topic.kind != []
    {
      if sel[i].topic.kind == [] {
        needsLookup := true;
        break;
      }
      i := i + 1;
    }
    if !needsLookup {
      CompletesItself(sel);
      return Some(sel);
    }
    if reply.None? { return None; }
    var types: map<string, string> := map[];
    i := 0;
    while i < |reply.value|
      invariant 0 <= i <= |reply.value|
      invariant forall n :: LastReported(reply.value[..i], n) == if n in types then Some(types[n]) else None
    {
      assert reply.value[..i + 1][..i] == reply.value[..i];
      types := types[reply.value[i].name := reply.value[i].kind];
      i := i + 1;
    }
    assert reply.value[..i] == reply.value;
    var subs, missing := sel, 0;
    i := 0;
    while i < |sel|
      invariant 0 <= i <= |sel| == |subs| && missing >= 0
      invariant missing == 0 <==> forall j :: 0 <= j < i ==> Inferred(sel[j], reply.value).Some?
      invariant missing == 0 ==> forall j :: 0 <= j < i ==> Some(subs[j]) == Inferred(sel[j], reply.value)
      invariant forall j :: i <= j < |sel| ==> subs[j] == sel[j]
    {
      var topic := subs[i].topic;
      if topic.kind == [] {
        if topic.name !in types || types[topic.name] == [] {
          missing := missing + 1;
        } else {
          subs := subs[i := subs[i].(topic := topic.(kind := types[topic.name]))];
        }
      }
      i := i + 1;
    }
    if missing != 0 { return None; }
    InferredCompletes(subs, sel, reply.value);
    return Some(subs);
  }

  // ---------------------------------------------------------------- discovery

  datatype AllMode = AllMode(hideRosout: bool, allow: seq<string>, deny: seq<string>, maxTopics: nat)

  predicate Kept(c: AllMode, info: TopicInfo) {
    && !(c.hideRosout && info.name == "/rosout")
    && (c.allow == [] || info.name in c.allow)
    && info.name !in c.deny
    && !(info.name != [] && info.name[0] == '_')
  }

  /** The reported topics that pass the filters, in the order reported. */
  function Discovered(c: AllMode, infos: seq<TopicInfo>): seq<Selection> {
    if infos == [] then []
    else
      var last := infos[|infos| - 1];
      Discovered(c, infos[..|infos| - 1]) + if Kept(c, last) then [Selection(last, None)] else []
  }

  /** The filters, one topic at a time: what stands on the deny list, is hidden, starts with an
      underscore, or is missing on a non-empty allow list is left out. */
  lemma DiscoveredOne(c: AllMode, info: TopicInfo)
    ensures Discovered(c, [info]) ==
            if (c.hideRosout && info.name == "/rosout") || info.name in c.deny
               || (c.allow != [] && info.name !in c.allow) || (info.name != [] && info.name[0] == '_')
            then [] else [Selection(info, None)]
  {
    var one := [info];
    assert one[..0] == [] && Discovered(c, one[..0]) == [];
  }

  /** And one after the other. */
  lemma {:induction false} DiscoveredAppend(c: AllMode, a: seq<TopicInfo>, b: seq<TopicInfo>)
    ensures Discovered(c, a + b) == Discovered(c, a) + Discovered(c, b)
    decreases b
  {
    if b == [] {
      assert a + b == a && Discovered(c, a) + [] == Discovered(c, a);
    } else {
      var n := |b| - 1;
      assert (a + b)[..|a + b| - 1] == a + b[..n];
      DiscoveredAppend(c, a, b[..n]);
    }
  }

  method DiscoverAllTopics(c: AllMode, reply: Option<seq<TopicInfo>>) returns (r: Option<seq<Selection>>)
    ensures r == if reply.None? || |Discovered(c, reply.value)| > c.maxTopics then None
                 else Some(Discovered(c, reply.value))
  {
    if reply.None? { return None; }
    var out, i := [], 0;
    while i < |reply.value|
      invariant 0 <= i <= |reply.value| && out == Discovered(c, reply.value[..i])
    {
      var info := reply.value[i];
      assert reply.value[..i + 1][..i] == reply.value[..i];
      i := i + 1;
      assert out + [] == out;
      if c.hideRosout && info.name == "/rosout" { continue; }
      if c.allow != [] { if info.name !in c.allow { continue; } }
      if info.name in c.deny { continue; }
      if info.name != [] && info.name[0] == '_' { continue; }
      out := out + [Selection(info, None)];
    }
    assert reply.value[..i] == reply.value;
    if |out| > c.maxTopics { return None; }
    return Some(out);
  }

  // ---------------------------------------------------------------- what a sink makes of a list

  predicate IsSpace(c: char) {
    c in {' ', '\t', '\n', '\r', '\U{000B}', '\U{000C}'}
  }

  function TrimFront(s: string): string {
    if s != [] && IsSpace(s[0]) then TrimFront(s[1..]) else s
  }

  function TrimBack(s: string): string {
    if s != [] && IsSpace(s[|s| - 1]) then TrimBack(s[..|s| - 1]) else s
  }

  function Trim(s: string): string {
    TrimBack(TrimFront(s))
  }

  predicate Trimmed(s: string) {
    s != [] && !IsSpace(s[0]) && !IsSpace(s[|s| - 1])
  }

  predicate AllSpace(s: string) {
    forall c :: c in s ==> IsSpace(c)
  }

  /** What is trimmed away is white space, and nothing else is. */
  lemma TrimIsExact(s: string)
    ensures Trim(s) == [] || Trimmed(Trim(s))
    ensures exists pre, post :: AllSpace(pre) && AllSpace(post) && s == pre + Trim(s) + post
  {
    hide TrimFront, TrimBack, IsSpace;
    var pre := FrontCut(s);
    var post := BackCut(TrimFront(s));
    assert Trim(s) != [] ==> Trim(s)[0] == TrimFront(s)[0];
    Assoc(pre, Trim(s), post);
  }

  lemma {:induction false} FrontCut(s: string) returns (pre: string)
    ensures s == pre + TrimFront(s) && AllSpace(pre)
    ensures TrimFront(s) == [] || !IsSpace(TrimFront(s)[0])
  {
    if s != [] && IsSpace(s[0]) {
      var rest := FrontCut(s[1..]);
      pre := [s[0]] + rest;
    } else {
      pre := [];
    }
  }

  lemma {:induction false} BackCut(s: string) returns (post: string)
    ensures s == TrimBack(s) + post && AllSpace(post)
    ensures TrimBack(s) == [] || !IsSpace(TrimBack(s)[|TrimBack(s)| - 1])
  {
    if s != [] && IsSpace(s[|s| - 1]) {
      var rest := BackCut(s[..|s| - 1]);
      post := rest + [s[|s| - 1]];
      assert s == s[..|s| - 1] + [s[|s| - 1]];
    } else {
      post := [];
    }
  }

  function TrimInfo(t: TopicInfo): TopicInfo {
    TopicInfo(Trim(t.name), Trim(t.kind))
  }

  function TrimAll(ts: seq<TopicInfo>): (r: seq<TopicInfo>)
    ensures |r| == |ts|
  {
    if ts == [] then [] else TrimAll(ts[..|ts| - 1]) + [TrimInfo(ts[|ts| - 1])]
  }

  lemma {:induction false} TrimAllAt(ts: seq<TopicInfo>, i: nat)
    requires i < |ts|
    ensures TrimAll(ts)[i] == TopicInfo(Trim(ts[i].name), Trim(ts[i].kind))
  {
    hide Trim;
    if i < |ts| - 1 { TrimAllAt(ts[..|ts| - 1], i); }
  }

  /** White space is what C++'s isspace says in the "C" locale. */
  lemma SpacesTrimmed()
    ensures Trim(" \t\n\r\U{000B}\U{000C}/a b \n") == "/a b"
  {
    var spaces := " \t\n\r\U{000B}\U{000C}";
    FrontTrimmed(spaces, "/a b \n");
    var back := " \n";
    BackTrimmed("/a b", back);
    assert spaces + "/a b \n" == " \t\n\r\U{000B}\U{000C}/a b \n" && "/a b" + back == "/a b \n";
  }

  lemma {:induction false} FrontTrimmed(spaces: string, rest: string)
    requires AllSpace(spaces) && rest != [] && !IsSpace(rest[0])
    ensures TrimFront(spaces + rest) == rest
    decreases spaces
  {
    if spaces == [] {
      assert spaces + rest == rest;
    } else {
      assert spaces[0] in spaces && (spaces + rest)[1..] == spaces[1..] + rest;
      FrontTrimmed(spaces[1..], rest);
    }
  }

  lemma {:induction false} BackTrimmed(rest: string, spaces: string)
    requires AllSpace(spaces) && rest != [] && !IsSpace(rest[|rest| - 1])
    ensures TrimBack(rest + spaces) == rest
    decreases spaces
  {
    if spaces == [] {
      assert rest + spaces == rest;
    } else {
      var n := |spaces| - 1;
      assert spaces[n] in spaces && (rest + spaces)[..|rest| + n] == rest + spaces[..n];
      BackTrimmed(rest, spaces[..n]);
    }
  }

  /** A sink takes a list exactly when no name or type is blank. */
  predicate SinkAccepts(ts: seq<TopicInfo>) {
    forall i :: 0 <= i < |ts| ==> Trim(ts[i].name) != [] && Trim(ts[i].kind) != []
  }

  /** Blank means nothing but white space. */
  lemma AcceptsIff(ts: seq<TopicInfo>)
    ensures SinkAccepts(ts) <==>
            forall i :: 0 <= i < |ts| ==> !AllSpace(ts[i].name) && !AllSpace(ts[i].kind)
  {
    hide Trim, AllSpace;
    forall i | 0 <= i < |ts|
      ensures Trim(ts[i].name) == [] <==> AllSpace(ts[i].name)
      ensures Trim(ts[i].kind) == [] <==> AllSpace(ts[i].kind)
    {
      BlankIff(ts[i].name);
      BlankIff(ts[i].kind);
    }
  }

  lemma BlankIff(s: string)
    ensures Trim(s) == [] <==> AllSpace(s)
  {
    hide TrimFront, TrimBack, IsSpace;
    var pre := FrontCut(s);
    var post := BackCut(TrimFront(s));
    if Trim(s) == [] { assert s == pre + post; }
  }

  method ParseSubscriptions(ts: seq<TopicInfo>) returns (r: Option<seq<TopicInfo>>)
    ensures r == if SinkAccepts(ts) then Some(TrimAll(ts)) else None
  {
    var configs, i := [], 0;
    while i < |ts|
      invariant 0 <= i <= |ts| && SinkAccepts(ts[..i]) && configs == TrimAll(ts[..i])
    {
      var name, kind := TrimBack(TrimFront(ts[i].name)), TrimBack(TrimFront(ts[i].kind));
      if name == [] || kind == [] { return None; }
      assert ts[..i + 1][..i] == ts[..i];
      configs := configs + [TopicInfo(name, kind)];
      i := i + 1;
    }
    assert ts[..i] == ts;
    return Some(configs);
  }

  /** A list of trimmed names and types reaches the sink as it is. */
  lemma {:induction false} TrimmedListsSurvive(ts: seq<TopicInfo>)
    requires forall i :: 0 <= i < |ts| ==> Trimmed(ts[i].name) && Trimmed(ts[i].kind)
    ensures SinkAccepts(ts) && TrimAll(ts) == ts
  {
    hide Trim, Trimmed;
    if ts != [] {
      var n := |ts| - 1;
      TrimmedListsSurvive(ts[..n]);
      assert ts == ts[..n] + [ts[n]];
      forall i | 0 <= i < |ts|
        ensures ts[i].name != [] && Trim(ts[i].name) == ts[i].name
        ensures ts[i].kind != [] && Trim(ts[i].kind) == ts[i].kind
      {
        TrimmedSurvives(ts[i].name);
        TrimmedSurvives(ts[i].kind);
      }
    }
  }

  lemma TrimmedSurvives(s: string)
    requires Trimmed(s)
    ensures s != [] && Trim(s) == s
  {
  }
}
