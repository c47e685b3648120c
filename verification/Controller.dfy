/** The dispatcher controller: one handler at a time drives two lifecycle sinks and a component
    container through remote calls that may be unavailable, be refused, or time out, with or
    without having taken effect.

    `Valid` is the main result: it says what phase Idle tells about the remote world, and every
    handler keeps it. Ghost fields record what the program cannot know: how many remote calls
    went wrong, how a sink was last reached, and which tool nodes were leaked.
 */
module Controller {
  import opened Options
  import opened RemoteNodes
  import opened ToolFleet
  import opened TopicPlan

  datatype Phase = Idle | Busy | Error

  datatype Mode = Gui | File | All

  datatype Snapshot = Snapshot(topics: seq<Selection>, sinkTopics: seq<TopicInfo>)

  const NO_SELECTION := Snapshot([], [])

  datatype Settings = Settings(
    kafkaNamed: bool, mosquittoNamed: bool, validateTopics: bool, allowMissing: bool, all: AllMode)

  /** How the last successful apply or stop reached a sink: fully, without setting its
      subscriptions, or not at all; `Untouched` until one has succeeded. */
  datatype Contact = Untouched | Reached | Stale | Skipped

  /** Remote calls that went wrong, those of them that were loads left without an answer, and
      the loads among these that took effect all the same. */
  datatype History = History(faults: nat, loadTimeouts: nat, lost: nat)

  /** Each lost load was a load without an answer, and each of those a fault. */
  predicate Grew(a: History, b: History) {
    0 <= b.lost - a.lost <= b.loadTimeouts - a.loadTimeouts <= b.faults - a.faults
  }

  /** What becomes of a remote call: it is answered, by a node in some trouble or none; the service
      is unavailable; or no answer comes in time, whether or not the call took effect. */
  datatype Remote = Answered(trouble: Trouble) | Unavailable | TimedOut(trouble: Trouble, took: bool)

  const CLEAN := Answered(NoTrouble)

  /** How many of the first `n` calls were not answered without trouble. */
  function Unclean(remote: nat -> Remote, n: nat): nat {
    if n == 0 then 0 else Unclean(remote, n - 1) + if remote(n - 1) == CLEAN then 0 else 1
  }

  datatype ParamChange = ModeChange(value: string) | PathChange(path: string) | AutoChange(on: bool) | OtherChange

  /** A request, with what the selection file holds when it is served; None when it cannot be
      read. */
  datatype Request =
    | Apply(topics: seq<TopicInfo>)
    | Reload(path: string, applyNow: bool, loaded: Option<seq<Selection>>)
    | Stop(resetCached: bool)
    | SetMode(value: string, path: string, applyNow: bool, loaded: Option<seq<Selection>>)
    | ChangeParams(changes: seq<ParamChange>, loaded: Option<seq<Selection>>)
    | StartupTimer(loaded: Option<seq<Selection>>)
    | Status

  predicate FileDistinct(loaded: Option<seq<Selection>>) {
    loaded.Some? ==> ToolInputsDistinct(loaded.value)
  }

  predicate RequestDistinct(r: Request) {
    match r
    case Reload(_, _, loaded) => FileDistinct(loaded)
    case SetMode(_, _, _, loaded) => FileDistinct(loaded)
    case ChangeParams(_, loaded) => FileDistinct(loaded)
    case StartupTimer(loaded) => FileDistinct(loaded)
    case _ => true
  }

  /** Requests that bring no file, or one without tools, repeat no tool input. */
  lemma NoToolsRequests(
    path: string, applyNow: bool, value: string, changes: seq<ParamChange>, topics: seq<TopicInfo>,
    loaded: Option<seq<Selection>>)
    requires loaded.Some? ==> NoTools(loaded.value)
    ensures RequestDistinct(Reload(path, applyNow, loaded)) && RequestDistinct(SetMode(value, path, applyNow, loaded))
    ensures RequestDistinct(ChangeParams(changes, loaded)) && RequestDistinct(StartupTimer(loaded))
    ensures RequestDistinct(Apply(topics)) && RequestDistinct(Stop(applyNow)) && RequestDistinct(Status)
  {
    if loaded.Some? { NoToolsDistinct(loaded.value); }
  }

  function ParseMode(value: string): Option<Mode> {
    if value == "gui" then Some(Gui) else if value == "file" then Some(File)
    else if value == "all" then Some(All) else None
  }

  /** A snapshot's sink topics are what its topics plan to. */
  ghost predicate Coherent(s: Snapshot) {
    var r := BuildPlan(s.topics);
    r.Planned? && r.plan.sinkTopics == s.sinkTopics
  }

  predicate Streams(sink: View, contact: Contact, topics: seq<TopicInfo>) {
    && (contact != Skipped ==> sink.state == Active)
    && (contact == Reached ==> sink.subscriptions == TrimAll(topics))
  }

  predicate Quiet(sink: View, contact: Contact) {
    contact == Reached ==> sink.state != Active
  }

  /** What phase Idle tells about the remote world. With a selection applied, Kafka's sink is
      active, with exactly the applied subscriptions unless setting them was skipped; the other
      sink likewise unless it was skipped or has no name; and the tools of the plan run. With
      none applied, no sink that was reached is active and no tool is tracked. Once an apply or
      a stop has succeeded, anything short of `Reached` needs the setting that allows missing
      sinks, or a sink without a name. */
  ghost predicate IdleFacts(
    s: Settings, kafka: View, mosquitto: View, first: Contact, second: Contact, applied: Snapshot, books: Fleet)
  {
    && (first == Stale || first == Skipped ==> s.allowMissing || !s.kafkaNamed)
    && (second == Stale || second == Skipped ==> s.allowMissing || !s.mosquittoNamed)
    && if applied.topics == [] then
         Quiet(kafka, first) && Quiet(mosquitto, second) && books.tools == map[]
       else
         && (first == Reached || first == Stale) && second != Untouched
         && Streams(kafka, first, applied.sinkTopics)
         && Streams(mosquitto, second, applied.sinkTopics)
         && BuildPlan(applied.topics).Planned?
         && Runs(books, BuildPlan(applied.topics).plan.tools)
  }

  lemma AppliedIsTrue(
    s: Settings, kafka: View, mosquitto: View, first: Contact, second: Contact,
    topics: seq<Selection>, plan: Plan, books: Fleet)
    requires topics != [] && BuildPlan(topics) == Planned(plan) && Runs(books, plan.tools)
    requires first == Reached || (first == Stale && s.allowMissing)
    requires second == Reached || (second != Untouched && (s.allowMissing || !s.mosquittoNamed))
    requires Streams(kafka, first, plan.sinkTopics) && Streams(mosquitto, second, plan.sinkTopics)
    ensures IdleFacts(s, kafka, mosquitto, first, second, Snapshot(topics, plan.sinkTopics), books)
  {
  }

  lemma StoppedIsTrue(
    s: Settings, kafka: View, mosquitto: View, first: Contact, second: Contact, books: Fleet)
    requires first == Reached || s.allowMissing || !s.kafkaNamed
    requires second == Reached || s.allowMissing || !s.mosquittoNamed
    requires Quiet(kafka, first) && Quiet(mosquitto, second) && books.tools == map[]
    ensures IdleFacts(s, kafka, mosquitto, first, second, NO_SELECTION, books)
  {
  }

  lemma PlainPlan(topic: TopicInfo)
    requires topic.name != []
    ensures BuildPlan([Selection(topic, None)]) == Planned(Plan([], [topic]))
  {
    assert [Selection(topic, None)][..0] == [];
  }

  lemma PlainTrim(topic: TopicInfo)
    requires Trimmed(topic.name) && Trimmed(topic.kind)
    ensures TrimAll([topic]) == [topic]
  {
    TrimmedListsSurvive([topic]);
  }

  /** What a selection must be for an apply to succeed when every remote call does. */
  ghost predicate Streamable(sel: seq<Selection>) {
    var r := BuildPlan(sel);
    sel != [] && !NeedsLookup(sel) && r.Planned? && SinkAccepts(r.plan.sinkTopics)
  }

  /** Every snapshot is coherent; all but the file's stay within the limit; GUI topics have
      their types. */
  ghost predicate SnapshotsOk(gui: Snapshot, file: Snapshot, all: Snapshot, applied: Snapshot, max: nat) {
    && Coherent(gui) && Coherent(file) && Coherent(all) && Coherent(applied)
    && |gui.topics| <= max && |all.topics| <= max && |applied.topics| <= max
    && !NeedsLookup(gui.topics) && NoTools(gui.topics)
  }

  /** Only a file's entries carry tools. */
  predicate NoTools(sel: seq<Selection>) {
    forall i :: 0 <= i < |sel| ==> sel[i].tools.None?
  }

  lemma NoToolsDistinct(sel: seq<Selection>)
    requires NoTools(sel)
    ensures ToolInputsDistinct(sel)
  {
  }

  lemma CompletedNoTools(full: seq<Selection>, sel: seq<Selection>)
    requires Completes(full, sel) && NoTools(sel)
    ensures NoTools(full)
  {
    assert forall i :: 0 <= i < |sel| ==> CompletesAt(full[i], sel[i]);
  }

  lemma AppliedOk(gui: Snapshot, file: Snapshot, all: Snapshot, applied: Snapshot, max: nat,
                  topics: seq<Selection>, plan: Plan)
    requires SnapshotsOk(gui, file, all, applied, max)
    requires BuildPlan(topics) == Planned(plan) && |topics| <= max
    ensures SnapshotsOk(gui, file, all, Snapshot(topics, plan.sinkTopics), max)
  {
  }

  lemma ResetOk(gui: Snapshot, file: Snapshot, all: Snapshot, applied: Snapshot, max: nat)
    requires SnapshotsOk(gui, file, all, applied, max)
    ensures SnapshotsOk(gui, file, all, NO_SELECTION, max)
    ensures SnapshotsOk(NO_SELECTION, NO_SELECTION, NO_SELECTION, NO_SELECTION, max)
  {
  }

  lemma GuiOk(gui: Snapshot, file: Snapshot, all: Snapshot, applied: Snapshot, max: nat)
    requires SnapshotsOk(gui, file, all, applied, max) && !NeedsLookup(applied.topics) && NoTools(applied.topics)
    ensures SnapshotsOk(applied, file, all, applied, max)
  {
  }

  /** A snapshot with topics has sink topics, so neither a reload nor a mode switch ever has to
      rebuild them. */
  lemma SinkTopicsNeverMissing(s: Snapshot)
    requires Coherent(s) && s.topics != []
    ensures s.sinkTopics != [] && |s.sinkTopics| == |s.topics|
  {
    PlanPositions(s.topics);
  }

  /** The modes named in a batch are known. */
  predicate ModesValid(changes: seq<ParamChange>) {
    forall i :: 0 <= i < |changes| && changes[i].ModeChange? ==>
      changes[i].value == "gui" || changes[i].value == "file" || changes[i].value == "all"
  }

  /** The last mode of a batch, if any; likewise its path and its flag, or what was there before. */
  function LastMode(changes: seq<ParamChange>): Option<string> {
    if changes == [] then None
    else
      var last := changes[|changes| - 1];
      if last.ModeChange? then Some(last.value) else LastMode(changes[..|changes| - 1])
  }

  function LastPath(changes: seq<ParamChange>, before: string): string {
    if changes == [] then before
    else
      var last := changes[|changes| - 1];
      if last.PathChange? then last.path else LastPath(changes[..|changes| - 1], before)
  }

  function LastAuto(changes: seq<ParamChange>, before: bool): bool {
    if changes == [] then before
    else
      var last := changes[|changes| - 1];
      if last.AutoChange? then last.on else LastAuto(changes[..|changes| - 1], before)
  }

  /** They are the last ones indeed. */
  lemma {:induction false} LastsAre(
    a: seq<ParamChange>, change: ParamChange, b: seq<ParamChange>, path: string, on: bool)
    ensures change.ModeChange? && (forall i :: 0 <= i < |b| ==> !b[i].ModeChange?) ==>
              LastMode(a + [change] + b) == Some(change.value)
    ensures change.PathChange? && (forall i :: 0 <= i < |b| ==> !b[i].PathChange?) ==>
              LastPath(a + [change] + b, path) == change.path
    ensures change.AutoChange? && (forall i :: 0 <= i < |b| ==> !b[i].AutoChange?) ==>
              LastAuto(a + [change] + b, on) == change.on
    ensures (forall i :: 0 <= i < |b| ==> !b[i].ModeChange?) ==> LastMode(b) == None
    ensures (forall i :: 0 <= i < |b| ==> !b[i].PathChange?) ==> LastPath(b, path) == path
    ensures (forall i :: 0 <= i < |b| ==> !b[i].AutoChange?) ==> LastAuto(b, on) == on
    decreases b
  {
    var all := a + [change] + b;
    if b != [] {
      var n := |b| - 1;
      assert all[..|all| - 1] == a + [change] + b[..n] && all[|all| - 1] == b[n];
      LastsAre(a, change, b[..n], path, on);
    } else {
      assert all == a + [change] && all[..|a|] == a;
    }
  }

  lemma BatchSnoc(changes: seq<ParamChange>, i: nat)
    requires i < |changes|
    ensures changes[..i + 1][..i] == changes[..i] && changes[..i + 1][i] == changes[i]
    ensures ModesValid(changes[..i + 1]) <==>
            ModesValid(changes[..i]) && (changes[i].ModeChange? ==> ParseMode(changes[i].value).Some?)
  {
    var front, next := changes[..i], changes[..i + 1];
    assert forall k :: 0 <= k < i ==> next[k] == front[k];
    if ModesValid(next) {
      forall k | 0 <= k < i && front[k].ModeChange?
        ensures front[k].value == "gui" || front[k].value == "file" || front[k].value == "all"
      {
        assert next[k] == front[k];
      }
    }
  }

  lemma OneInvalid(changes: seq<ParamChange>, i: nat)
    requires i < |changes| && changes[i].ModeChange? && ParseMode(changes[i].value).None?
    ensures !ModesValid(changes)
  {
  }

  lemma ModesParsed()
    ensures ParseMode("gui") == Some(Gui) && ParseMode("file") == Some(File) && ParseMode("all") == Some(All)
  {
  }

  function Plain(topics: seq<TopicInfo>): (r: seq<Selection>)
    ensures |r| == |topics|
    ensures forall i :: 0 <= i < |topics| ==> r[i] == Selection(topics[i], None)
  {
    if topics == [] then [] else Plain(topics[..|topics| - 1]) + [Selection(topics[|topics| - 1], None)]
  }

  lemma {:induction false} DiscoveredNoTools(c: AllMode, infos: seq<TopicInfo>)
    ensures NoTools(Discovered(c, infos))
  {
    if infos != [] { DiscoveredNoTools(c, infos[..|infos| - 1]); }
  }

  lemma PlainNoTools(topics: seq<TopicInfo>)
    ensures NoTools(Plain(topics))
  {
  }

  /** There is a selection for a mode: cached by the GUI, in a file that can be read, typed and
      planned, or discovered, planned and within the limit. */
  predicate Available(
    c: AllMode, gui: seq<Selection>, m: Mode, path: string, loaded: Option<seq<Selection>>,
    reply: Option<seq<TopicInfo>>)
  {
    match m
    case Gui => gui != []
    case File => path != [] && loaded.Some? && Typable(loaded.value, reply) && BuildPlan(loaded.value).Planned?
    case All =>
      && reply.Some? && |Discovered(c, reply.value)| <= c.maxTopics
      && BuildPlan(Discovered(c, reply.value)).Planned?
  }

  /** What a mode caches is what was loaded, with types filled in where some were missing, or
      what was discovered. */
  predicate Holds(
    c: AllMode, m: Mode, cached: seq<Selection>, loaded: Option<seq<Selection>>, reply: Option<seq<TopicInfo>>)
  {
    match m
    case Gui => true
    case File =>
      && loaded.Some? && Completes(cached, loaded.value)
      && (!NeedsLookup(loaded.value) ==> cached == loaded.value)
    case All => reply.Some? && cached == Discovered(c, reply.value)
  }

  class DispatcherController {
    const settings: Settings
    const kafka: SinkNode
    const mosquitto: SinkNode
    const container: Container

    var phase: Phase
    var mode: Mode
    var filePath: string
    var autoApply: bool
    var startupArmed: bool
    var gui: Snapshot
    var file: Snapshot
    var all: Snapshot
    var applied: Snapshot
    var tools: map<string, ActiveTool>

    const remote: nat -> Remote
    const reports: nat -> Option<seq<TopicInfo>>
    var calls: nat
    var asked: nat

    ghost const foreign: set<nat>
    ghost var loadTimeouts: nat
    ghost var kafkaContact: Contact
    ghost var mosquittoContact: Contact
    ghost var leaked: set<nat>
    ghost var lost: nat
    ghost var overwritten: nat

    ghost function Books(): Fleet reads this, container {
      Fleet(tools, container.nodes, container.nextId, foreign, leaked, lost, overwritten)
    }

    /** How many remote calls went wrong. */
    ghost function Faults(): nat reads this {
      Unclean(remote, calls)
    }

    ghost function Past(): History reads this {
      History(Faults(), loadTimeouts, lost)
    }

    ghost predicate Wired() reads this, kafka, mosquitto, container {
      kafka != mosquitto && kafka.Valid() && mosquitto.Valid() && FleetOk(Books())
    }

    ghost predicate CachesOk() reads this {
      SnapshotsOk(gui, file, all, applied, settings.all.maxTopics)
    }

    ghost predicate IdleTruth() reads this, kafka, mosquitto, container {
      IdleFacts(settings, kafka.Seen(), mosquitto.Seen(), kafkaContact, mosquittoContact, applied, Books())
    }

    ghost predicate Valid() reads this, kafka, mosquitto, container {
      Wired() && CachesOk() && (phase == Idle ==> IdleTruth())
    }

    constructor (
      settings: Settings, mode: Mode, path: string, autoApply: bool,
      kafka: SinkNode, mosquitto: SinkNode, container: Container,
      remote: nat -> Remote, reports: nat -> Option<seq<TopicInfo>>)
      requires kafka != mosquitto && kafka.Valid() && mosquitto.Valid() && container.Valid()
      ensures this.remote == remote && this.reports == reports && calls == asked == 0
      ensures Valid() && phase == Idle && applied == NO_SELECTION
      ensures gui == file == all == NO_SELECTION && tools == map[] && this.settings == settings
      ensures this.mode == mode && filePath == path && this.autoApply == autoApply
      ensures startupArmed <==> mode == File && autoApply && path != []
      ensures Past() == History(0, 0, 0) && overwritten == 0 && foreign == container.nodes.Keys
      ensures this.kafka == kafka && this.mosquitto == mosquitto && this.container == container
    {
      this.settings, this.kafka, this.mosquitto, this.container := settings, kafka, mosquitto, container;
      this.remote, this.reports, calls, asked := remote, reports, 0, 0;
      this.phase, this.mode, this.filePath, this.autoApply := Idle, mode, path, autoApply;
      startupArmed := mode == File && autoApply && path != [];
      gui, file, all, applied := NO_SELECTION, NO_SELECTION, NO_SELECTION, NO_SELECTION;
      tools := map[];
      foreign := container.nodes.Keys;
      loadTimeouts, kafkaContact, mosquittoContact := 0, Untouched, Untouched;
      leaked, lost, overwritten := {}, 0, 0;
    }

    // -------------------------------------------------------------- remote calls

    /** The next remote call: what becomes of it, and one more fault unless it was answered without
        trouble. */
    method Ask() returns (answer: Remote)
      modifies this`calls
      ensures answer == remote(old(calls)) && calls == old(calls) + 1
      ensures Faults() == old(Faults()) + if answer == CLEAN then 0 else 1
    {
      answer := remote(calls);
      calls := calls + 1;
    }

    method GetSinkState(sink: SinkNode) returns (r: Option<SinkState>)
      modifies this`calls
      ensures r.Some? ==> r.value == sink.state && Faults() == old(Faults())
      ensures r.None? ==> Faults() == old(Faults()) + 1
      ensures calls == old(calls) + 1 && (r.Some? <==> remote(old(calls)) == CLEAN)
    {
      var answer := Ask();
      return if answer == CLEAN then Some(sink.state) else None;
    }

    /** A transition request. A lost answer leaves the transition taken or not. */
    method ChangeSinkState(sink: SinkNode, t: Transition) returns (ok: bool)
      requires sink.Valid()
      modifies this`calls, sink`state, sink`configured, sink`subscriptions
      ensures sink.Valid() && Faults() >= old(Faults())
      ensures calls == old(calls) + 1 && (ok ==> remote(old(calls)).Answered?)
      ensures remote(old(calls)) == Unavailable || (remote(old(calls)).TimedOut? && !remote(old(calls)).took) ==>
                !ok && sink.Seen() == old(sink.Seen()) && sink.configured == old(sink.configured)
      ensures ok ==> old(sink.state) == Source(t) && sink.state == Target(t)
      ensures ok && t == Deactivate ==> sink.subscriptions == []
      ensures t != Configure ==> sink.configured == old(sink.configured)
      ensures ok && t == Configure ==> SinkAccepts(sink.yaml) && sink.configured == TrimAll(sink.yaml)
      ensures !ok && Faults() == old(Faults()) ==> sink.state == old(sink.state)
      ensures !ok && Faults() == old(Faults()) ==>
                old(sink.state) != Source(t) || (t == Configure && !SinkAccepts(sink.yaml))
      ensures t == Deactivate && old(sink.state) != Active ==> sink.state == old(sink.state)
    {
      hide Unclean;
      var answer := Ask();
      match answer {
        case Answered(trouble) => ok := sink.ChangeState(t, trouble);
        case Unavailable => return false;
        case TimedOut(trouble, took) =>
          if took { ok := sink.ChangeState(t, trouble); }
          return false;
      }
    }

    /** Set a sink's subscriptions. `skipped` tells that the service was unavailable and the
        settings allow that. */
    method SetSinkSubscriptions(sink: SinkNode, subs: seq<TopicInfo>) returns (ok: bool, ghost skipped: bool)
      requires sink.Valid()
      modifies this`calls, sink`yaml, sink`configured
      ensures sink.Valid() && Faults() >= old(Faults())
      ensures calls == old(calls) + 1 && (skipped <==> remote(old(calls)) == Unavailable && settings.allowMissing)
      ensures ok && !skipped ==> remote(old(calls)) == CLEAN
      ensures remote(old(calls)) == Unavailable || (remote(old(calls)).TimedOut? && !remote(old(calls)).took) ==>
                sink.yaml == old(sink.yaml) && sink.configured == old(sink.configured)
      ensures skipped ==> ok && settings.allowMissing && Faults() > old(Faults())
      ensures ok && !skipped ==> sink.configured == TrimAll(subs)
      ensures skipped ==> sink.configured == old(sink.configured)
      ensures Faults() == old(Faults()) && old(sink.state) != Active && SinkAccepts(subs) ==> ok
    {
      hide Unclean;
      skipped := false;
      var answer := Ask();
      match answer {
        case Answered(trouble) => ok := sink.OnParametersSet(subs, trouble);
        case Unavailable => return settings.allowMissing, settings.allowMissing;
        case TimedOut(trouble, took) =>
          if took { ok := sink.OnParametersSet(subs, trouble); }
          return false, false;
      }
    }

    /** What the introspection manager answers, if it does. */
    method GetTopics() returns (reply: Option<seq<TopicInfo>>)
      modifies this`asked
      ensures reply == reports(old(asked)) && asked == old(asked) + 1
    {
      reply := reports(asked);
      asked := asked + 1;
    }

    // -------------------------------------------------------------- topic tools

    method LoadAndActivateTool(tool: Tool) returns (r: Option<ActiveTool>)
      requires FleetOk(Books())
      modifies this`calls, this`loadTimeouts, this`leaked, this`lost, container
      ensures Grew(old(Past()), Past()) && (r.None? ==> Faults() > old(Faults()))
      ensures calls == old(calls) + 1 && (r.Some? <==> remote(old(calls)) == CLEAN)
      ensures loadTimeouts == old(loadTimeouts) + if remote(old(calls)).TimedOut? then 1 else 0
      ensures r.Some? ==> r.value == ActiveTool(old(container.nextId), tool) && Past() == old(Past())
      ensures r.Some? ==> Books() == Loaded(old(Books()), tool)
      ensures r.None? ==> FleetOk(Books())
    {
      hide Unclean;
      ghost var before := Books();
      var answer := Ask();
      assert Books() == before;
      var id;
      match answer {
        case Answered(trouble) =>
          id := container.LoadNode(tool, trouble);
          if id.None? {
            assert Books() == before;
            return None;
          }
          return Some(ActiveTool(id.value, tool));
        case Unavailable => return None;
        case TimedOut(trouble, took) =>
          loadTimeouts := loadTimeouts + 1;
          if took {
            id := container.LoadNode(tool, trouble);
            if id.Some? {
              leaked := leaked + {id.value};
              lost := lost + 1;
              LostLoadKeepsOk(before, tool);
              assert Books() == LostLoad(before, tool);
              return None;
            }
          }
          assert Books() == before;
          return None;
      }
    }

    method UnloadTool(id: nat) returns (ok: bool)
      modifies this`calls, container`nodes
      ensures Faults() >= old(Faults())
      ensures calls == old(calls) + 1 && (ok <==> remote(old(calls)).Answered? && id in old(container.nodes))
      ensures container.nodes ==
              if remote(old(calls)) == Unavailable || (remote(old(calls)).TimedOut? && !remote(old(calls)).took)
              then old(container.nodes) else old(container.nodes) - {id}
      ensures container.nodes == old(container.nodes) || container.nodes == old(container.nodes) - {id}
      ensures ok ==> id in old(container.nodes) && id !in container.nodes
      ensures !ok && Faults() == old(Faults()) ==> id !in old(container.nodes)
    {
      hide Unclean;
      var answer := Ask();
      match answer {
        case Answered(_) => ok := container.UnloadNode(id);
        case Unavailable => return false;
        case TimedOut(_, took) =>
          if took { ok := container.UnloadNode(id); }
          return false;
      }
    }

    /** Unload every tracked tool. One refusal stops the loop and leaves the table as it was, so
        an unload that took effect leaves a torn entry, and a torn entry can never be cleared. */
    method ClearActiveTools() returns (ok: bool)
      requires FleetOk(Books())
      modifies this`calls, this`tools, container`nodes
      ensures FleetOk(Books()) && Faults() >= old(Faults())
      ensures ok ==> !old(Torn(Books())) && Runs(Books(), []) && tools == map[]
      ensures !ok ==> tools == old(tools)
      ensures old(Torn(Books())) ==> Torn(Books())
      ensures !ok && Faults() == old(Faults()) ==> old(Torn(Books()))
      ensures !ok && !old(Torn(Books())) ==> (Torn(Books()) <==> container.nodes != old(container.nodes))
    {
      hide Unclean, FleetOk, Runs;
      var remaining := tools.Keys;
      DistinctIdsOf(Books());
      while remaining != {}
        invariant remaining <= tools.Keys && tools == old(tools) && Faults() >= old(Faults())
        invariant Books() == old(Books()).(nodes := container.nodes) && FleetOk(Books())
        invariant container.nodes == old(container.nodes) || Torn(Books())
        invariant forall id :: id in container.nodes ==> id in old(container.nodes)
        invariant forall k :: k in tools && k !in remaining ==>
                    tools[k].id in old(container.nodes) && tools[k].id !in container.nodes
        invariant forall k :: k in remaining && tools[k].id in old(container.nodes) ==> tools[k].id in container.nodes
        decreases remaining
      {
        var k :| k in remaining;
        ghost var before := Books();
        UnloadedKeepsOk(before, k);
        var unloaded := UnloadTool(tools[k].id);
        assert Books() == before || Books() == Unloaded(before, tools[k].id);
        assert tools[k].id !in container.nodes ==> Torn(Books());
        if !unloaded {
          return false;
        }
        remaining := remaining - {k};
      }
      ClearedKeepsOk(Books());
      tools := map[];
      return true;
    }

    lemma DistinctIdsOf(f: Fleet)
      requires FleetOk(f)
      ensures DistinctIds(f.tools)
    {
    }

    /** Load one tool and enter it in the table. */
    method LoadTool(tool: Tool) returns (ok: bool)
      requires FleetOk(Books()) && !Torn(Books())
      modifies this`calls, this`loadTimeouts, this`tools, this`leaked, this`lost, this`overwritten, container
      ensures FleetOk(Books()) && Grew(old(Past()), Past())
      ensures ok ==> Books() == Recorded(old(Books()), tool) && Past() == old(Past())
      ensures !ok ==> Faults() > old(Faults()) && overwritten == old(overwritten)
    {
      hide Unclean, FleetOk, Torn;
      ghost var before := Books();
      var loaded := LoadAndActivateTool(tool);
      if loaded.None? { return false; }
      if tool.input in tools {
        leaked := leaked + {tools[tool.input].id};
        overwritten := overwritten + 1;
      }
      tools := tools[tool.input := loaded.value];
      assert Books() == Recorded(before, tool);
      RecordedKeepsOk(before, tool);
      return true;
    }

    /** Clear the table, then load the plan's tools in turn. As many entries are overwritten, and
        their nodes leaked, as the plan has more tools than input topics. */
    method ReconcileTools(plan: Plan) returns (ok: bool)
      requires FleetOk(Books())
      modifies this`calls, this`loadTimeouts, this`tools, this`leaked, this`lost, this`overwritten, container
      ensures FleetOk(Books()) && Grew(old(Past()), Past())
      ensures ok ==> !old(Torn(Books())) && Runs(Books(), plan.tools)
      ensures old(Torn(Books())) ==> Torn(Books())
      ensures !ok && Faults() == old(Faults()) ==> old(Torn(Books()))
      ensures DistinctInputs(plan.tools) ==> overwritten == old(overwritten)
      ensures ok ==> overwritten == old(overwritten) + |plan.tools| - |Wanted(plan.tools)|
      ensures ok ==> (overwritten == old(overwritten) <==> DistinctInputs(plan.tools))
      ensures ok ==> loadTimeouts == old(loadTimeouts)
    {
      hide Unclean, FleetOk, Runs, Torn, Wanted;
      ghost var first, past := overwritten, Past();
      var cleared := ClearActiveTools();
      if !cleared { return false; }
      var i := 0;
      assert plan.tools[..0] == [];
      WantedNothing();
      while i < |plan.tools|
        invariant 0 <= i <= |plan.tools| && Grew(past, Past()) && FleetOk(Books())
        invariant Runs(Books(), plan.tools[..i])
        invariant overwritten == first + i - |Wanted(plan.tools[..i])|
        invariant DistinctInputs(plan.tools) ==> overwritten == first
        invariant loadTimeouts == past.loadTimeouts
      {
        var tool := plan.tools[i];
        ghost var before := Books();
        RunsFacts(before, plan.tools[..i]);
        var loaded := LoadTool(tool);
        if !loaded { return false; }
        assert plan.tools[..i + 1][..i] == plan.tools[..i];
        RecordedRuns(before, plan.tools[..i + 1]);
        WantedSize(plan.tools[..i + 1]);
        if DistinctInputs(plan.tools) { DistinctNeverOverwrites(plan.tools, i); }
        i := i + 1;
      }
      assert plan.tools[..i] == plan.tools;
      WholePlanIsDistinct(plan.tools);
      return true;
    }

    lemma RunsFacts(f: Fleet, ts: seq<Tool>)
      requires Runs(f, ts)
      ensures !Torn(f) && f.tools.Keys == Wanted(ts).Keys
    {
    }

    // -------------------------------------------------------------- sinks

    /** The end of an apply on either sink: set the list and activate. A sink that could not be
        told streams exactly what it was configured for, so it streams the list asked for
        exactly when it was told or configured for that already. */
    method TellAndActivate(sink: SinkNode, subs: seq<TopicInfo>) returns (ok: bool, ghost contact: Contact)
      requires sink.Valid()
      modifies this`calls, sink
      ensures sink.Valid() && Faults() >= old(Faults())
      ensures ok ==> sink.state == Active
      ensures ok ==> contact == Reached || (contact == Stale && settings.allowMissing && Faults() > old(Faults()))
      ensures ok && contact == Reached ==> sink.subscriptions == TrimAll(subs)
      ensures ok && contact == Stale ==> sink.subscriptions == old(sink.configured)
      ensures ok ==> (sink.subscriptions == TrimAll(subs) <==>
                      contact == Reached || old(sink.configured) == TrimAll(subs))
      ensures Faults() == old(Faults()) && SinkAccepts(subs) && old(sink.state) == Inactive ==> ok
      ensures ok ==> old(sink.state) == Inactive
    {
      hide Unclean, TrimAll, SinkAccepts;
      contact := Skipped;
      var told;
      ghost var skipped;
      told, skipped := SetSinkSubscriptions(sink, subs);
      if !told { return false, contact; }
      ok := ChangeSinkState(sink, Activate);
      contact := if skipped then Stale else Reached;
    }

    method ApplySelectionToSink(sink: SinkNode, named: bool, subs: seq<TopicInfo>)
      returns (ok: bool, ghost contact: Contact)
      requires sink.Valid()
      modifies this`calls, sink
      ensures sink.Valid() && Faults() >= old(Faults())
      ensures ok ==> Streams(sink.Seen(), contact, subs) && contact != Untouched
      ensures ok && contact == Skipped ==> sink.Seen() == old(sink.Seen())
      ensures ok && contact != Skipped ==>
                (sink.subscriptions == TrimAll(subs) <==>
                 contact == Reached || old(sink.Standing()) == TrimAll(subs))
      ensures ok && contact == Stale ==> sink.subscriptions == old(sink.Standing())
      ensures ok && contact != Reached ==> !named || (settings.allowMissing && Faults() > old(Faults()))
      ensures Faults() == old(Faults()) && SinkAccepts(subs) && old(sink.Ready()) ==> ok
      ensures ok && contact != Skipped ==> old(sink.Ready())
    {
      contact := Skipped;
      if !named { return true, contact; }
      var state := GetSinkState(sink);
      if state.None? { return settings.allowMissing, contact; }
      if state.value == Active {
        var deactivated := ChangeSinkState(sink, Deactivate);
        if !deactivated { return false, contact; }
        state := GetSinkState(sink);
        if state.None? { return false, contact; }
      }
      if state.value == Unconfigured {
        var configured := ChangeSinkState(sink, Configure);
        if !configured { return false, contact; }
      }
      ok, contact := TellAndActivate(sink, subs);
    }

    method DeactivateSink(sink: SinkNode, named: bool) returns (ok: bool, ghost contact: Contact)
      requires sink.Valid()
      modifies this`calls, sink
      ensures sink.Valid() && Faults() >= old(Faults())
      ensures ok ==> Quiet(sink.Seen(), contact) && (contact == Reached || contact == Skipped)
      ensures ok && contact == Reached && old(sink.state) == Active ==> sink.subscriptions == []
      ensures ok && contact != Reached ==> !named || (settings.allowMissing && Faults() > old(Faults()))
      ensures Faults() == old(Faults()) ==> ok
    {
      contact := Skipped;
      if !named { return true, contact; }
      var state := GetSinkState(sink);
      if state.None? { return settings.allowMissing, contact; }
      contact := Reached;
      if state.value == Active {
        ok := ChangeSinkState(sink, Deactivate);
        return ok, contact;
      }
      return true, contact;
    }

    /** Both sinks were fully reached, as far as they have names. */
    ghost predicate ReachedAll() reads this {
      kafkaContact != Stale && (settings.kafkaNamed ==> kafkaContact == Reached)
      && (settings.mosquittoNamed ==> mosquittoContact == Reached)
    }

    /** Nothing stands in the way of an apply but remote Faults(). */
    ghost predicate Willing() reads this, kafka, mosquitto, container {
      !Torn(Books()) && kafka.Ready() && mosquitto.Ready()
    }

    /** The start of an apply: the first state query and the plan, with missing types filled
        in first when topics are validated. Nothing remote has changed yet. */
    method PrepareApply(topics: seq<Selection>, reply: Option<seq<TopicInfo>>)
      returns (r: Option<(SinkState, seq<Selection>, Plan)>)
      modifies this`calls
      ensures Faults() >= old(Faults())
      ensures r.Some? ==> r.value.0 == kafka.state && topics != []
      ensures r.Some? ==> |r.value.1| == |topics| && BuildPlan(r.value.1) == Planned(r.value.2)
      ensures r.Some? ==> Completes(r.value.1, topics)
      ensures r.Some? ==> (DistinctInputs(r.value.2.tools) <==> ToolInputsDistinct(topics))
      ensures r.Some? && !NeedsLookup(topics) ==> r.value.1 == topics
      ensures r.Some? && !settings.validateTopics ==> r.value.1 == topics
      ensures r.Some? && settings.validateTopics ==> !NeedsLookup(r.value.1)
      ensures Faults() == old(Faults()) ==>
                (r.Some? <==> && topics != [] && (settings.validateTopics ==> Typable(topics, reply))
                              && BuildPlan(topics).Planned?)
    {
      if topics == [] { return None; }
      var state := GetSinkState(kafka);
      if state.None? { return None; }
      var validated := topics;
      CompletesItself(topics);
      if settings.validateTopics {
        var inferred := InferMissingTypes(validated, reply);
        if inferred.None? { return None; }
        validated := inferred.value;
      }
      var plan := BuildTopicToolsPlan(validated);
      CompletedPlans(validated, topics);
      if plan.Refused? { return None; }
      PlanInputs(plan.plan, validated, topics);
      return Some((state.value, validated, plan.plan));
    }

    /** The part of an apply between the first state query and the second sink. */
    method ApplyToKafka(first: SinkState, plan: Plan) returns (ok: bool, ghost contact: Contact)
      requires kafka.Valid() && FleetOk(Books()) && first == kafka.state
      modifies this`calls, this`loadTimeouts, this`tools, this`leaked, this`lost, this`overwritten, kafka, container
      ensures kafka.Valid() && FleetOk(Books()) && Grew(old(Past()), Past())
      ensures DistinctInputs(plan.tools) ==> overwritten == old(overwritten)
      ensures ok ==> (overwritten == old(overwritten) <==> DistinctInputs(plan.tools))
      ensures ok ==> loadTimeouts == old(loadTimeouts)
      ensures ok && contact == Stale ==> kafka.subscriptions == old(kafka.Standing())
      ensures ok ==> (kafka.subscriptions == TrimAll(plan.sinkTopics) <==>
                      contact == Reached || old(kafka.Standing()) == TrimAll(plan.sinkTopics))
      ensures ok ==> Streams(kafka.Seen(), contact, plan.sinkTopics) && Runs(Books(), plan.tools)
      ensures ok ==> contact == Reached || (contact == Stale && settings.allowMissing && Faults() > old(Faults()))
      ensures old(Torn(Books())) ==> Torn(Books()) && !ok
      ensures Faults() == old(Faults()) && SinkAccepts(plan.sinkTopics) && old(kafka.Ready()) && !old(Torn(Books()))
              ==> ok
      ensures ok ==> old(kafka.Ready())
    {
      hide Unclean, FleetOk, Runs, SinkAccepts, TrimAll, Torn, DistinctInputs;
      contact := Skipped;
      var state := Some(first);
      if state.value == Active {
        var deactivated := ChangeSinkState(kafka, Deactivate);
        if !deactivated { return false, contact; }
        state := GetSinkState(kafka);
        if state.None? { return false, contact; }
      }
      if state.value == Unconfigured {
        var configured := ChangeSinkState(kafka, Configure);
        if !configured { return false, contact; }
      }
      assert Books() == old(Books());
      var reconciled := ReconcileTools(plan);
      if !reconciled { return false, contact; }
      ghost var running := Books();
      ok, contact := TellAndActivate(kafka, plan.sinkTopics);
      assert Books() == running;
    }

    /** Everything remote in an apply: Kafka's sink and the tools, then the second sink. */
    method ApplyRemote(first: SinkState, plan: Plan)
      returns (ok: bool, ghost contact: Contact, ghost second: Contact)
      requires Wired() && first == kafka.state
      modifies this`calls, this`loadTimeouts, this`tools, this`leaked, this`lost, this`overwritten,
               kafka, mosquitto, container
      ensures Wired() && Grew(old(Past()), Past())
      ensures DistinctInputs(plan.tools) ==> overwritten == old(overwritten)
      ensures ok ==> (overwritten == old(overwritten) <==> DistinctInputs(plan.tools))
      ensures ok ==> loadTimeouts == old(loadTimeouts)
      ensures ok && contact == Stale ==> kafka.subscriptions == old(kafka.Standing())
      ensures ok && second == Stale ==> mosquitto.subscriptions == old(mosquitto.Standing())
      ensures ok ==> Streams(kafka.Seen(), contact, plan.sinkTopics) && Runs(Books(), plan.tools)
      ensures ok ==> Streams(mosquitto.Seen(), second, plan.sinkTopics)
      ensures ok ==> contact == Reached || (contact == Stale && settings.allowMissing && Faults() > old(Faults()))
      ensures ok && second != Reached ==>
                second != Untouched && (!settings.mosquittoNamed || (settings.allowMissing && Faults() > old(Faults())))
      ensures old(Torn(Books())) ==> Torn(Books()) && !ok
      ensures Faults() == old(Faults()) && SinkAccepts(plan.sinkTopics) && old(Willing()) ==> ok
      ensures ok ==> old(kafka.Ready())
    {
      hide Unclean, FleetOk, Runs, SinkAccepts, TrimAll, Torn, DistinctInputs, Streams;
      second := Skipped;
      ok, contact := ApplyToKafka(first, plan);
      if ok {
        ghost var running := Books();
        ok, second := ApplySelectionToSink(mosquitto, settings.mosquittoNamed, plan.sinkTopics);
        assert Books() == running;
      }
    }

    /** The whole chain. Nothing is recorded as applied unless every step went through. */
    method ApplySelection(topics: seq<Selection>, reply: Option<seq<TopicInfo>>) returns (ok: bool)
      requires Wired() && CachesOk() && |topics| <= settings.all.maxTopics
      modifies this`calls, this`loadTimeouts, this`tools, this`leaked, this`lost, this`overwritten, this`applied,
               this`kafkaContact, this`mosquittoContact, kafka, mosquitto, container
      ensures Wired() && CachesOk() && Grew(old(Past()), Past())
      ensures ToolInputsDistinct(topics) ==> overwritten == old(overwritten)
      ensures ok ==> (overwritten == old(overwritten) <==> ToolInputsDistinct(topics))
      ensures ok ==> loadTimeouts == old(loadTimeouts)
      ensures ok && kafkaContact == Stale ==> kafka.subscriptions == old(kafka.Standing())
      ensures ok && mosquittoContact == Stale ==> mosquitto.subscriptions == old(mosquitto.Standing())
      ensures ok ==> IdleTruth() && Completes(applied.topics, topics) && topics != []
      ensures ok && (!NeedsLookup(topics) || !settings.validateTopics) ==> applied.topics == topics
      ensures ok && settings.validateTopics ==> !NeedsLookup(applied.topics)
      ensures !ok ==> applied == old(applied)
      ensures old(Torn(Books())) ==> Torn(Books()) && !ok
      ensures ok && Faults() == old(Faults()) ==> ReachedAll()
      ensures ok ==> old(kafka.Ready())
      ensures Faults() == old(Faults()) && Streamable(topics) && old(Willing()) ==> ok
    {
      hide Unclean, FleetOk, Runs, BuildPlan, NeedsLookup, SinkAccepts, TrimAll, Torn, SnapshotsOk, IdleFacts,
           Completes, DistinctInputs, ToolInputsDistinct, Streams;
      ok := false;
      var prepared := PrepareApply(topics, reply);
      assert Books() == old(Books());
      if prepared.Some? {
        var (state, validated, plan) := prepared.value;
        ghost var contact, second;
        ok, contact, second := ApplyRemote(state, plan);
        if ok {
          RecordApply(validated, plan, contact, second);
        }
      }
    }

    method RecordApply(validated: seq<Selection>, plan: Plan, ghost contact: Contact, ghost second: Contact)
      requires Wired() && CachesOk() && validated != [] && |validated| <= settings.all.maxTopics
      requires BuildPlan(validated) == Planned(plan) && Runs(Books(), plan.tools)
      requires Streams(kafka.Seen(), contact, plan.sinkTopics) && Streams(mosquitto.Seen(), second, plan.sinkTopics)
      requires contact == Reached || (contact == Stale && settings.allowMissing)
      requires second == Reached || (second != Untouched && (settings.allowMissing || !settings.mosquittoNamed))
      modifies this`applied, this`kafkaContact, this`mosquittoContact
      ensures Wired() && CachesOk() && IdleTruth()
      ensures applied == Snapshot(validated, plan.sinkTopics)
      ensures kafkaContact == contact && mosquittoContact == second
    {
      hide Unclean, FleetOk, Runs, BuildPlan, SnapshotsOk, IdleFacts, Streams;
      ghost var running := Books();
      AppliedOk(gui, file, all, applied, settings.all.maxTopics, validated, plan);
      AppliedIsTrue(settings, kafka.Seen(), mosquitto.Seen(), contact, second, validated, plan, running);
      kafkaContact, mosquittoContact := contact, second;
      applied := Snapshot(validated, plan.sinkTopics);
      assert Books() == running;
    }

    // -------------------------------------------------------------- handlers

    /** Apply with the phase around it. */
    method ApplyNow(topics: seq<Selection>) returns (ok: bool)
      requires Wired() && CachesOk() && |topics| <= settings.all.maxTopics
      modifies this`phase, this`asked, this`calls, this`loadTimeouts, this`tools, this`leaked, this`lost,
               this`overwritten, this`applied, this`kafkaContact, this`mosquittoContact, kafka, mosquitto, container
      ensures Valid() && Grew(old(Past()), Past())
      ensures phase == if ok then Idle else Error
      ensures ToolInputsDistinct(topics) ==> overwritten == old(overwritten)
      ensures ok ==> (overwritten == old(overwritten) <==> ToolInputsDistinct(topics))
      ensures ok ==> loadTimeouts == old(loadTimeouts)
      ensures ok && kafkaContact == Stale ==> kafka.subscriptions == old(kafka.Standing())
      ensures ok && mosquittoContact == Stale ==> mosquitto.subscriptions == old(mosquitto.Standing())
      ensures ok ==> Completes(applied.topics, topics) && topics != []
      ensures ok && !NeedsLookup(topics) ==> applied.topics == topics
      ensures !ok ==> applied == old(applied)
      ensures old(Torn(Books())) ==> Torn(Books())
      ensures ok && Faults() == old(Faults()) ==> ReachedAll()
      ensures Faults() == old(Faults()) && Streamable(topics) && old(Willing()) ==> ok
    {
      hide Unclean, FleetOk, Runs, BuildPlan, NeedsLookup, SinkAccepts, TrimAll, Torn, SnapshotsOk, IdleFacts,
           Completes, ToolInputsDistinct;
      var reply := GetTopics();
      phase := Busy;
      assert Books() == old(Books());
      ok := ApplySelection(topics, reply);
      ghost var books := Books();
      phase := if ok then Idle else Error;
      assert Books() == books;
    }

    /** The GUI's request. On success the cache and the applied selection are both the requested
        topics, their types completed. */
    method HandleApplySelection(topics: seq<TopicInfo>) returns (ok: bool)
      requires Valid()
      modifies this, kafka, mosquitto, container
      ensures Valid()
      ensures phase == if old(phase) == Busy || mode != Gui || !Typable(Plain(topics), reports(old(asked)))
                          || |topics| > settings.all.maxTopics
                       then old(phase) else if ok then Idle else Error
      ensures ok ==> old(phase) != Busy && mode == Gui && Typable(Plain(topics), reports(old(asked)))
                     && |topics| <= settings.all.maxTopics
      ensures ok && !NeedsLookup(Plain(topics)) ==> gui.topics == Plain(topics)
      ensures ok ==> gui == applied && Completes(applied.topics, Plain(topics)) && !NeedsLookup(applied.topics)
      ensures !ok ==> applied == old(applied) && gui == old(gui)
      ensures mode == old(mode) && file == old(file) && all == old(all)
      ensures Grew(old(Past()), Past()) && overwritten == old(overwritten)
      ensures ok ==> loadTimeouts == old(loadTimeouts)
      ensures ok && kafkaContact == Stale ==> kafka.subscriptions == old(kafka.Standing())
      ensures old(Torn(Books())) ==> Torn(Books())
      ensures ok && Faults() == old(Faults()) ==> ReachedAll()
      ensures (&& Faults() == old(Faults()) && old(phase) != Busy && mode == Gui && old(Willing())
               && Streamable(Plain(topics)) && |topics| <= settings.all.maxTopics) ==> ok
    {
      hide Unclean, FleetOk, Runs, BuildPlan, NeedsLookup, SinkAccepts, TrimAll, Torn, SnapshotsOk, IdleFacts, Plain,
           Inferred, AllInferred, Completes, NoTools, ToolInputsDistinct, Streamable, Coherent, Streams, Quiet;
      StreamableTyped(Plain(topics));
      if phase == Busy || mode != Gui { return false; }
      var selection := Select(topics);
      var reply := GetTopics();
      var inferred := InferMissingTypes(selection, reply);
      if inferred.None? || |inferred.value| > settings.all.maxTopics { return false; }
      PlainNoTools(topics);
      CompletedNoTools(inferred.value, Plain(topics));
      NoToolsDistinct(inferred.value);
      ok := ApplyNow(inferred.value);
      if ok { CacheGui(inferred.value); }
    }

    static method Select(topics: seq<TopicInfo>) returns (selection: seq<Selection>)
      ensures selection == Plain(topics)
    {
      selection := [];
      var i := 0;
      while i < |topics|
        invariant 0 <= i <= |topics| && selection == Plain(topics[..i])
      {
        assert topics[..i + 1][..i] == topics[..i];
        selection := selection + [Selection(topics[i], None)];
        i := i + 1;
      }
      assert topics[..i] == topics;
    }

    method CacheGui(topics: seq<Selection>)
      requires Valid() && applied.topics == topics && !NeedsLookup(topics) && NoTools(topics)
      modifies this`gui
      ensures Valid() && gui == applied && Books() == old(Books())
    {
      hide Unclean, FleetOk, Torn, SnapshotsOk, IdleFacts, NoTools, NeedsLookup;
      GuiOk(gui, file, all, applied, settings.all.maxTopics);
      gui := Snapshot(topics, applied.sinkTopics);
      assert Books() == old(Books());
    }

    /** Load, complete and plan a file's selection, and cache it. The limit is not checked yet. */
    method RefreshFile(path: string, loaded: Option<seq<Selection>>)
      returns (r: Option<seq<Selection>>)
      requires CachesOk()
      modifies this`file, this`asked
      ensures r.Some? <==>
                && path != [] && loaded.Some? && Typable(loaded.value, reports(old(asked)))
                && BuildPlan(loaded.value).Planned?
      ensures r.Some? ==> Completes(r.value, loaded.value)
      ensures r.Some? && !NeedsLookup(loaded.value) ==> r == loaded
      ensures CachesOk() && (r.Some? ==> file.topics == r.value) && (r.None? ==> file == old(file))
    {
      hide BuildPlan, Completes, NeedsLookup, Typable;
      if path == [] || loaded.None? { return None; }
      var reply := GetTopics();
      var inferred := InferMissingTypes(loaded.value, reply);
      if inferred.None? { return None; }
      CompletedPlans(inferred.value, loaded.value);
      var plan := BuildTopicToolsPlan(inferred.value);
      if plan.Refused? { return None; }
      file := Snapshot(inferred.value, plan.plan.sinkTopics);
      return inferred;
    }

    /** Discover and plan every topic, and cache it. */
    method RefreshAll() returns (r: Option<seq<Selection>>)
      requires CachesOk()
      modifies this`all, this`asked
      ensures var reply := reports(old(asked));
              && (r.Some? <==> reply.Some? && |Discovered(settings.all, reply.value)| <= settings.all.maxTopics
                               && BuildPlan(Discovered(settings.all, reply.value)).Planned?)
              && (r.Some? ==> r.value == Discovered(settings.all, reply.value) && NoTools(r.value))
      ensures CachesOk() && (r.Some? ==> all.topics == r.value) && (r.None? ==> all == old(all))
    {
      hide BuildPlan, Discovered;
      var reply := GetTopics();
      var found := DiscoverAllTopics(settings.all, reply);
      if found.None? { return None; }
      var plan := BuildTopicToolsPlan(found.value);
      if plan.Refused? { return None; }
      DiscoveredNoTools(settings.all, reply.value);
      all := Snapshot(found.value, plan.plan.sinkTopics);
      return found;
    }

    predicate WithinLimit(m: Mode) reads this {
      |CacheOf(m).topics| <= settings.all.maxTopics
    }

    /** The selection a mode applies: the cached one of the GUI, the file's or the discovered one
        afresh. */
    method SelectionFor(m: Mode, path: string, loaded: Option<seq<Selection>>)
      returns (r: Option<seq<Selection>>)
      requires CachesOk()
      modifies this`file, this`all, this`asked
      ensures CachesOk() && gui == old(gui)
      ensures r.Some? <==> Available(settings.all, gui.topics, m, path, loaded, reports(old(asked)))
      ensures r.Some? ==> CacheOf(m).topics == r.value
      ensures r.Some? ==> Holds(settings.all, m, CacheOf(m).topics, loaded, reports(old(asked)))
      ensures r.None? || m != File ==> file == old(file)
      ensures r.None? || m != All ==> all == old(all)
      ensures r.Some? && FileDistinct(loaded) ==> ToolInputsDistinct(r.value)
    {
      hide BuildPlan, Discovered, Completes, NeedsLookup, Typable, ToolInputsDistinct;
      match m {
        case Gui =>
          r := if gui.topics == [] then None else Some(gui.topics);
          NoToolsDistinct(gui.topics);
        case File =>
          r := RefreshFile(path, loaded);
          if r.Some? { CompletedInputs(r.value, loaded.value); }
        case All =>
          r := RefreshAll();
          if r.Some? { NoToolsDistinct(r.value); }
      }
    }

    /** What a reload and a mode switch share: get the mode's selection, check the limit, and
        apply it if asked to. Without a selection, or with too long a one, nothing is applied and
        the phase stays. */
    method RefreshAndApply(m: Mode, path: string, applyNow: bool, loaded: Option<seq<Selection>>)
      returns (ok: bool)
      requires Valid() && phase != Busy
      modifies this`file, this`all, this`asked, this`phase, this`calls, this`loadTimeouts, this`tools, this`leaked,
               this`lost, this`overwritten, this`applied, this`kafkaContact, this`mosquittoContact,
               kafka, mosquitto, container
      ensures Valid() && Grew(old(Past()), Past()) && (FileDistinct(loaded) ==> overwritten == old(overwritten))
      ensures ok ==> loadTimeouts == old(loadTimeouts)
      ensures var there := Available(settings.all, gui.topics, m, path, loaded, reports(old(asked)));
              && (ok ==> there && WithinLimit(m))
              && (there ==> Holds(settings.all, m, CacheOf(m).topics, loaded, reports(old(asked))))
              && (!there || m != File ==> file == old(file)) && (!there || m != All ==> all == old(all))
              && (phase == if !applyNow || !there || !WithinLimit(m) then old(phase) else if ok then Idle else Error)
              && (!applyNow && there && WithinLimit(m) ==> ok)
              && ((&& applyNow && there && WithinLimit(m) && Faults() == old(Faults())
                   && Streamable(CacheOf(m).topics) && old(Willing())) ==> ok)
      ensures ok && applyNow ==> Completes(applied.topics, CacheOf(m).topics) && CacheOf(m).topics != []
      ensures ok && applyNow && !NeedsLookup(CacheOf(m).topics) ==> applied.topics == CacheOf(m).topics
      ensures ok && applyNow && Faults() == old(Faults()) ==> ReachedAll()
      ensures !ok || !applyNow ==> applied == old(applied)
      ensures old(Torn(Books())) ==> Torn(Books())
    {
      hide Unclean, FleetOk, Runs, BuildPlan, NeedsLookup, SinkAccepts, TrimAll, Torn, SnapshotsOk, IdleFacts,
           Completes, FileDistinct, ToolInputsDistinct, Streamable, Available, Holds;
      var selection := SelectionFor(m, path, loaded);
      assert Books() == old(Books());
      if selection.None? || |selection.value| > settings.all.maxTopics { return false; }
      ok := true;
      ghost var held := Caches();
      if applyNow { ok := ApplyNow(selection.value); }
      assert Caches() == held;
    }

    /** A reload takes the request's path or else the stored one, and stores neither. */
    method HandleReloadSelection(path: string, applyNow: bool, loaded: Option<seq<Selection>>)
      returns (ok: bool)
      requires Valid()
      modifies this, kafka, mosquitto, container
      ensures Valid() && Grew(old(Past()), Past()) && (FileDistinct(loaded) ==> overwritten == old(overwritten))
      ensures ok ==> loadTimeouts == old(loadTimeouts)
      ensures mode == old(mode) && gui == old(gui) && filePath == old(filePath) && autoApply == old(autoApply)
      ensures old(phase) == Busy ==> !ok && phase == Busy && Caches() == old(Caches())
      ensures old(phase) != Busy ==>
                var p := if path == [] then filePath else path;
                var there := Available(settings.all, gui.topics, mode, p, loaded, reports(old(asked)));
                && (ok ==> there && WithinLimit(mode))
                && (there ==> Holds(settings.all, mode, CacheOf(mode).topics, loaded, reports(old(asked))))
                && (!there ==> !ok && Caches() == old(Caches()))
                && (phase == if !applyNow || !there || !WithinLimit(mode) then old(phase)
                             else if ok then Idle else Error)
                && (!applyNow ==> (ok <==> there && WithinLimit(mode)))
                && ((&& applyNow && there && WithinLimit(mode) && Faults() == old(Faults())
                     && Streamable(CacheOf(mode).topics) && old(Willing())) ==> ok)
      ensures ok && applyNow ==> Completes(applied.topics, CacheOf(mode).topics) && CacheOf(mode).topics != []
      ensures ok && applyNow && !NeedsLookup(CacheOf(mode).topics) ==> applied.topics == CacheOf(mode).topics
      ensures ok && applyNow && Faults() == old(Faults()) ==> ReachedAll()
      ensures !ok || !applyNow ==> applied == old(applied)
      ensures old(Torn(Books())) ==> Torn(Books())
    {
      hide Unclean, FleetOk, Torn, SnapshotsOk, IdleFacts, Completes, FileDistinct, Streamable, Available, Holds,
           NeedsLookup;
      if phase == Busy { return false; }
      ok := RefreshAndApply(mode, if path == [] then filePath else path, applyNow, loaded);
    }

    method HandleStopStreaming(resetCached: bool) returns (ok: bool)
      requires Valid()
      modifies this, kafka, mosquitto, container
      ensures Valid()
      ensures phase == if old(phase) == Busy then Busy else if ok then Idle else Error
      ensures applied == if ok then NO_SELECTION else old(applied)
      ensures Grew(old(Past()), Past()) && overwritten == old(overwritten) && loadTimeouts == old(loadTimeouts)
      ensures ok ==> kafkaContact != Untouched && mosquittoContact != Untouched
      ensures Caches() == if ok && resetCached then (NO_SELECTION, NO_SELECTION, NO_SELECTION) else old(Caches())
      ensures old(Torn(Books())) ==> Torn(Books()) && !ok
      ensures ok && Faults() == old(Faults()) ==> ReachedAll()
      ensures Faults() == old(Faults()) && old(phase) != Busy && !old(Torn(Books())) ==> ok
    {
      hide Unclean, FleetOk, Runs, SinkAccepts, TrimAll, Torn, BuildPlan, SnapshotsOk, NeedsLookup, IdleFacts, Quiet;
      ok := false;
      if phase != Busy {
        ghost var first, second;
        ok, first, second := StopRemote();
        ghost var books := Books();
        if ok {
          RecordStop(resetCached, first, second);
        } else {
          phase := Error;
        }
        assert Books() == books;
      }
    }

    method RecordStop(resetCached: bool, ghost first: Contact, ghost second: Contact)
      requires Wired() && CachesOk() && tools == map[]
      requires Quiet(kafka.Seen(), first) && Quiet(mosquitto.Seen(), second)
      requires first == Reached || (first == Skipped && (settings.allowMissing || !settings.kafkaNamed))
      requires second == Reached || (second == Skipped && (settings.allowMissing || !settings.mosquittoNamed))
      modifies this`gui, this`file, this`all, this`applied, this`phase, this`kafkaContact, this`mosquittoContact
      ensures Valid() && phase == Idle && applied == NO_SELECTION
      ensures kafkaContact == first && mosquittoContact == second
      ensures Caches() == if resetCached then (NO_SELECTION, NO_SELECTION, NO_SELECTION) else old(Caches())
    {
      hide Unclean, FleetOk, BuildPlan, SnapshotsOk, NeedsLookup, IdleFacts, Quiet, Torn, Runs, Coherent, TrimAll,
           Streams;
      ResetOk(gui, file, all, applied, settings.all.maxTopics);
      StoppedIsTrue(settings, kafka.Seen(), mosquitto.Seen(), first, second, Books());
      ghost var books := Books();
      if resetCached {
        gui, file, all := NO_SELECTION, NO_SELECTION, NO_SELECTION;
      }
      applied := NO_SELECTION;
      kafkaContact, mosquittoContact := first, second;
      phase := Idle;
      assert Books() == books;
    }

    function Caches(): (Snapshot, Snapshot, Snapshot) reads this {
      (gui, file, all)
    }

    /** Skipping a sink needs a sink without a name, or the setting and a fault. */
    ghost predicate SkipAllowed(named: bool, before: nat) reads this {
      !named || (settings.allowMissing && Faults() > before)
    }

    /** The remote part of a stop: both sinks, then the tools. */
    method StopRemote() returns (ok: bool, ghost first: Contact, ghost second: Contact)
      requires Wired()
      modifies this`calls, this`tools, kafka, mosquitto, container
      ensures Wired() && Faults() >= old(Faults())
      ensures ok ==> Quiet(kafka.Seen(), first) && Quiet(mosquitto.Seen(), second) && tools == map[]
      ensures ok ==> first == Reached || (first == Skipped && SkipAllowed(settings.kafkaNamed, old(Faults())))
      ensures ok ==> second == Reached || (second == Skipped && SkipAllowed(settings.mosquittoNamed, old(Faults())))
      ensures old(Torn(Books())) ==> Torn(Books()) && !ok
      ensures Faults() == old(Faults()) && !old(Torn(Books())) ==> ok
    {
      hide Unclean, FleetOk, Runs, Torn;
      second := Skipped;
      ok, first := DeactivateSink(kafka, settings.kafkaNamed);
      assert Books() == old(Books());
      if ok {
        ok, second := DeactivateSink(mosquitto, settings.mosquittoNamed);
        assert Books() == old(Books());
        if ok {
          ok := ClearActiveTools();
        }
      }
    }

    function CacheOf(m: Mode): Snapshot reads this {
      match m
      case Gui => gui
      case File => file
      case All => all
    }

    /** A switch stores the mode and a path that is not empty, even when the apply then fails; to
        the GUI's mode without a cached selection it is only that. */
    method SwitchMode(newMode: Mode, path: string, applyNow: bool, loaded: Option<seq<Selection>>)
      returns (ok: bool)
      requires Valid()
      modifies this, kafka, mosquitto, container
      ensures Valid() && Grew(old(Past()), Past()) && (FileDistinct(loaded) ==> overwritten == old(overwritten))
      ensures ok ==> loadTimeouts == old(loadTimeouts)
      ensures gui == old(gui) && autoApply == old(autoApply) && startupArmed == old(startupArmed)
      ensures old(phase) == Busy ==>
                !ok && phase == Busy && mode == old(mode) && filePath == old(filePath) && Caches() == old(Caches())
      ensures (newMode != File ==> file == old(file)) && (newMode != All ==> all == old(all))
      ensures old(phase) != Busy ==> mode == newMode && filePath == if path != [] then path else old(filePath)
      ensures old(phase) != Busy && Stays(newMode, applyNow) ==>
                ok && phase == old(phase) && Caches() == old(Caches()) && applied == old(applied)
      ensures old(phase) != Busy && !Stays(newMode, applyNow) ==>
                var there := Available(settings.all, gui.topics, newMode, filePath, loaded, reports(old(asked)));
                && (ok ==> there && WithinLimit(newMode))
                && (there ==> Holds(settings.all, newMode, CacheOf(newMode).topics, loaded, reports(old(asked))))
                && (!there ==> !ok && Caches() == old(Caches()))
                && (phase == if !there || !WithinLimit(newMode) then old(phase) else if ok then Idle else Error)
                && ((&& there && WithinLimit(newMode) && Faults() == old(Faults())
                     && Streamable(CacheOf(newMode).topics) && old(Willing())) ==> ok)
      ensures ok && !Stays(newMode, applyNow) ==>
                CacheOf(newMode).topics != [] && Completes(applied.topics, CacheOf(newMode).topics)
      ensures ok && !Stays(newMode, applyNow) && !NeedsLookup(CacheOf(newMode).topics) ==>
                applied.topics == CacheOf(newMode).topics
      ensures ok && !Stays(newMode, applyNow) && Faults() == old(Faults()) ==> ReachedAll()
      ensures !ok || Stays(newMode, applyNow) ==> applied == old(applied)
      ensures old(Torn(Books())) ==> Torn(Books())
    {
      hide Unclean, FleetOk, Torn, SnapshotsOk, IdleFacts, Completes, FileDistinct, Streamable, Available, Holds,
           NeedsLookup, Runs, BuildPlan, SinkAccepts, TrimAll, ToolInputsDistinct, Streams, Quiet, Coherent,
           Discovered, Typable, Willing, ReachedAll, Wired, CachesOk, IdleTruth, Valid;
      if phase == Busy { return false; }
      StoreMode(newMode, path);
      if !applyNow || (newMode == Gui && gui.topics == []) { return true; }
      ok := RefreshAndApply(newMode, filePath, true, loaded);
    }

    method StoreMode(newMode: Mode, path: string)
      requires Valid()
      modifies this`mode, this`filePath
      ensures Valid() && mode == newMode && filePath == if path != [] then path else old(filePath)
      ensures Books() == old(Books()) && Willing() == old(Willing()) && Caches() == old(Caches())
    {
      hide Unclean, FleetOk, Torn, SnapshotsOk, IdleFacts;
      mode := newMode;
      if path != [] { filePath := path; }
      assert Books() == old(Books());
    }

    method StoreBatch(path: string, newAuto: Option<bool>)
      requires Valid()
      modifies this`filePath, this`autoApply
      ensures Valid() && filePath == path && autoApply == if newAuto.Some? then newAuto.value else old(autoApply)
      ensures Books() == old(Books()) && Caches() == old(Caches())
    {
      hide Unclean, FleetOk, Torn, SnapshotsOk, IdleFacts;
      filePath := path;
      if newAuto.Some? { autoApply := newAuto.value; }
      assert Books() == old(Books());
    }

    /** The loop over a batch: None for a mode that is not known. */
    method ScanBatch(changes: seq<ParamChange>)
      returns (r: Option<(Option<Mode>, string, Option<bool>)>)
      ensures r.Some? <==> ModesValid(changes)
      ensures r.Some? ==>
                var (newMode, newPath, newAuto) := r.value;
                && newMode == (if LastMode(changes).None? then None else ParseMode(LastMode(changes).value))
                && (newMode.None? <==> LastMode(changes).None?)
                && newPath == LastPath(changes, filePath)
                && LastAuto(changes, autoApply) == if newAuto.Some? then newAuto.value else autoApply
    {
      hide ParseMode;
      var newMode: Option<Mode> := None;
      var newPath := filePath;
      var newAuto: Option<bool> := None;
      var i := 0;
      while i < |changes|
        invariant 0 <= i <= |changes| && ModesValid(changes[..i])
        invariant newMode == (if LastMode(changes[..i]).None? then None else ParseMode(LastMode(changes[..i]).value))
        invariant newMode.None? <==> LastMode(changes[..i]).None?
        invariant newPath == LastPath(changes[..i], filePath)
        invariant LastAuto(changes[..i], autoApply) == if newAuto.Some? then newAuto.value else autoApply
      {
        BatchSnoc(changes, i);
        match changes[i] {
          case ModeChange(value) =>
            newMode := ParseMode(value);
            if newMode.None? {
              OneInvalid(changes, i);
              return None;
            }
          case PathChange(path) => newPath := path;
          case AutoChange(on) => newAuto := Some(on);
          case OtherChange =>
        }
        i := i + 1;
      }
      assert changes[..i] == changes;
      return Some((newMode, newPath, newAuto));
    }

    /** A switch that applies nothing. */
    predicate Stays(newMode: Mode, applyNow: bool) reads this {
      !applyNow || (newMode == Gui && gui.topics == [])
    }

    method HandleSetSelectionMode(value: string, path: string, applyNow: bool, loaded: Option<seq<Selection>>)
      returns (ok: bool)
      requires Valid()
      modifies this, kafka, mosquitto, container
      ensures Valid() && Grew(old(Past()), Past()) && (FileDistinct(loaded) ==> overwritten == old(overwritten))
      ensures ok ==> loadTimeouts == old(loadTimeouts)
      ensures gui == old(gui) && autoApply == old(autoApply)
      ensures old(phase) == Busy || (value != "gui" && value != "file" && value != "all") ==>
                && !ok && phase == old(phase) && mode == old(mode) && filePath == old(filePath)
                && applied == old(applied) && Caches() == old(Caches())
      ensures old(phase) != Busy ==>
                && (value == "gui" ==> mode == Gui) && (value == "file" ==> mode == File)
                && (value == "all" ==> mode == All)
      ensures old(phase) != Busy && (value == "gui" || value == "file" || value == "all") ==>
                && filePath == (if path != [] then path else old(filePath))
                && (Stays(mode, applyNow) ==> ok && phase == old(phase) && applied == old(applied))
                && (!Stays(mode, applyNow) ==>
                      var there := Available(settings.all, gui.topics, mode, filePath, loaded, reports(old(asked)));
                      && (ok ==> there && WithinLimit(mode))
                      && (there ==> Holds(settings.all, mode, CacheOf(mode).topics, loaded, reports(old(asked))))
                      && (phase == if !there || !WithinLimit(mode) then old(phase) else if ok then Idle else Error)
                      && ((&& there && WithinLimit(mode) && Faults() == old(Faults())
                           && Streamable(CacheOf(mode).topics) && old(Willing())) ==> ok))
      ensures ok && !Stays(mode, applyNow) ==>
                CacheOf(mode).topics != [] && Completes(applied.topics, CacheOf(mode).topics)
      ensures ok && !Stays(mode, applyNow) && !NeedsLookup(CacheOf(mode).topics) ==>
                applied.topics == CacheOf(mode).topics
      ensures ok && !Stays(mode, applyNow) && Faults() == old(Faults()) ==> ReachedAll()
      ensures !ok || Stays(mode, applyNow) ==> applied == old(applied)
      ensures old(Torn(Books())) ==> Torn(Books())
    {
      hide Unclean, FleetOk, Torn, SnapshotsOk, IdleFacts, Completes, FileDistinct, Streamable, Available, Holds,
           NeedsLookup;
      var newMode := ParseMode(value);
      if newMode.None? { return false; }
      ok := SwitchMode(newMode.value, path, applyNow, loaded);
      if ok {
        ghost var books, caches := Books(), Caches();
        filePath := if path == [] then filePath else path;
        assert Books() == books && Caches() == caches;
      }
    }

    /** A parameter batch: a path or an auto-apply flag only counts beside a mode, and the last
        of each wins. */
    method OnParamChange(changes: seq<ParamChange>, loaded: Option<seq<Selection>>)
      returns (ok: bool)
      requires Valid()
      modifies this, kafka, mosquitto, container
      ensures Valid() && Grew(old(Past()), Past()) && (FileDistinct(loaded) ==> overwritten == old(overwritten))
      ensures ok ==> loadTimeouts == old(loadTimeouts)
      ensures gui == old(gui) && (phase == Busy <==> old(phase) == Busy)
      ensures old(phase) == Busy || !ModesValid(changes) || LastMode(changes).None? ==>
                && (ok <==> ModesValid(changes) && LastMode(changes).None?)
                && phase == old(phase) && mode == old(mode) && filePath == old(filePath)
                && autoApply == old(autoApply) && applied == old(applied) && Caches() == old(Caches())
      ensures old(phase) != Busy && ModesValid(changes) && LastMode(changes).Some? ==>
                var newPath, apply := LastPath(changes, old(filePath)), LastAuto(changes, old(autoApply));
                var p := if newPath != [] then newPath else old(filePath);
                && (LastMode(changes) == Some("gui") ==> mode == Gui)
                && (LastMode(changes) == Some("file") ==> mode == File)
                && (LastMode(changes) == Some("all") ==> mode == All)
                && filePath == (if ok then newPath else p) && autoApply == (if ok then apply else old(autoApply))
                && (Stays(mode, apply) ==> ok && phase == old(phase) && applied == old(applied))
                && (!Stays(mode, apply) ==>
                      var there := Available(settings.all, gui.topics, mode, p, loaded, reports(old(asked)));
                      && (ok ==> there && WithinLimit(mode))
                      && (there ==> Holds(settings.all, mode, CacheOf(mode).topics, loaded, reports(old(asked))))
                      && (phase == if !there || !WithinLimit(mode) then old(phase) else if ok then Idle else Error)
                      && ((&& there && WithinLimit(mode) && Faults() == old(Faults())
                           && Streamable(CacheOf(mode).topics) && old(Willing())) ==> ok)
                      && (ok ==> CacheOf(mode).topics != [] && Completes(applied.topics, CacheOf(mode).topics)))
      ensures !ok ==> applied == old(applied)
      ensures old(Torn(Books())) ==> Torn(Books())
    {
      hide Unclean, FleetOk, Torn, SnapshotsOk, IdleFacts, ParseMode, Completes, FileDistinct, Streamable, Available,
           Holds, NeedsLookup;
      var scanned := ScanBatch(changes);
      ModesParsed();
      if scanned.None? { return false; }
      var (newMode, newPath, newAuto) := scanned.value;
      if newMode.None? { return true; }
      ok :=
        SwitchMode(newMode.value, newPath, if newAuto.Some? then newAuto.value else autoApply, loaded);
      if ok { StoreBatch(newPath, newAuto); }
    }

    /** The one-shot timer that applies the file selection at startup. */
    method OnStartupTimer(loaded: Option<seq<Selection>>)
      returns (ghost ok: bool)
      requires Valid()
      modifies this, kafka, mosquitto, container
      ensures Valid() && Grew(old(Past()), Past()) && (FileDistinct(loaded) ==> overwritten == old(overwritten))
      ensures !startupArmed && mode == old(mode) && filePath == old(filePath) && autoApply == old(autoApply)
      ensures gui == old(gui) && all == old(all) && (phase == Busy <==> old(phase) == Busy)
      ensures !old(startupArmed) || old(phase) == Busy || mode != File || filePath == [] ==>
                !ok && applied == old(applied) && phase == old(phase) && file == old(file)
      ensures old(startupArmed) && old(phase) != Busy && mode == File && filePath != [] ==>
                var there := Available(settings.all, gui.topics, File, filePath, loaded, reports(old(asked)));
                && (ok ==> there && WithinLimit(File))
                && (there ==> Holds(settings.all, File, file.topics, loaded, reports(old(asked))))
                && (phase == if !there || !WithinLimit(File) then old(phase) else if ok then Idle else Error)
                && ((&& there && WithinLimit(File) && Faults() == old(Faults()) && Streamable(file.topics)
                     && old(Willing())) ==> ok)
      ensures ok ==> Completes(applied.topics, file.topics) && file.topics != []
      ensures ok && !NeedsLookup(file.topics) ==> applied.topics == file.topics
      ensures ok && Faults() == old(Faults()) ==> ReachedAll()
      ensures !ok ==> applied == old(applied)
      ensures old(Torn(Books())) ==> Torn(Books())
    {
      hide Unclean, FleetOk, Torn, SnapshotsOk, IdleFacts, Completes, FileDistinct, Streamable, Available, Holds,
           NeedsLookup;
      ok := false;
      if !startupArmed { return; }
      startupArmed := false;
      assert Books() == old(Books());
      assert Willing() == old(Willing());
      if phase == Busy || mode != File || filePath == [] { return; }
      ok := SwitchMode(mode, filePath, true, loaded);
    }

    /** What a status request reports: the applied sink topics, and whether a sink streams. */
    method HandleGetStatus() returns (topics: seq<TopicInfo>, streaming: bool, reconciling: bool)
      requires Valid()
      modifies this`calls
      ensures Faults() >= old(Faults())
      ensures Valid() && topics == applied.sinkTopics && reconciling == (phase == Busy)
      ensures streaming ==> (settings.kafkaNamed && kafka.state == Active)
                            || (settings.mosquittoNamed && mosquitto.state == Active)
      ensures Faults() == old(Faults()) && !streaming && settings.kafkaNamed ==> kafka.state != Active
      ensures Faults() == old(Faults()) && !streaming && settings.mosquittoNamed ==> mosquitto.state != Active
    {
      hide Unclean, FleetOk, IdleFacts, BuildPlan;
      var kafkaState := GetSinkState(kafka);
      var mosquittoState: Option<SinkState> := None;
      if settings.mosquittoNamed { mosquittoState := GetSinkState(mosquitto); }
      streaming := false;
      if settings.kafkaNamed { streaming := kafkaState == Some(Active); }
      if settings.mosquittoNamed { streaming := streaming || mosquittoState == Some(Active); }
      topics := if applied.sinkTopics == [] then Infos(applied.topics) else applied.sinkTopics;
      if applied.topics != [] { SinkTopicsNeverMissing(applied); } else { NothingPlanned(applied); }
      reconciling := phase == Busy;
      assert Books() == old(Books());
    }

    /** Any requests in turn, from any number of clients: the mutex lets one handler run at a
        time. No handler ever finds the controller busy, and no entry is overwritten as long as
        no file repeats a tool's input. */
    method Serve(requests: seq<Request>)
      requires Valid() && phase != Busy
      modifies this, kafka, mosquitto, container
      ensures Valid() && phase != Busy && Grew(old(Past()), Past())
      ensures (forall i :: 0 <= i < |requests| ==> RequestDistinct(requests[i])) ==> overwritten == old(overwritten)
      ensures old(Torn(Books())) ==> Torn(Books())
    {
      hide Unclean, FleetOk, Torn, SnapshotsOk, IdleFacts, Completes, RequestDistinct;
      ghost var past, first := Past(), overwritten;
      var i := 0;
      while i < |requests|
        invariant 0 <= i <= |requests| && Valid() && phase != Busy && Grew(past, Past())
        invariant (forall k :: 0 <= k < i ==> RequestDistinct(requests[k])) ==> overwritten == first
        invariant old(Torn(Books())) ==> Torn(Books())
      {
        Dispatch(requests[i]);
        i := i + 1;
      }
    }

    method Dispatch(request: Request)
      requires Valid() && phase != Busy
      modifies this, kafka, mosquitto, container
      ensures Valid() && phase != Busy && Grew(old(Past()), Past())
      ensures RequestDistinct(request) ==> overwritten == old(overwritten)
      ensures old(Torn(Books())) ==> Torn(Books())
    {
      hide Unclean, FleetOk, Torn, SnapshotsOk, IdleFacts, Completes, FileDistinct;
      var ok;
      match request {
        case Apply(topics) => ok := HandleApplySelection(topics);
        case Reload(path, applyNow, loaded) => ok := HandleReloadSelection(path, applyNow, loaded);
        case Stop(resetCached) => ok := HandleStopStreaming(resetCached);
        case SetMode(value, path, applyNow, loaded) =>
          ok := HandleSetSelectionMode(value, path, applyNow, loaded);
        case ChangeParams(changes, loaded) => ok := OnParamChange(changes, loaded);
        case StartupTimer(loaded) =>
          ghost var applied := OnStartupTimer(loaded);
        case Status =>
          var topics, streaming, reconciling := HandleGetStatus();
          assert Books() == old(Books());
      }
    }

    /** A concrete case of an apply that streams an older list: the sink is configured for /a and
        the service that would set /b is away. */
    method StaleListMayDiffer() returns (ok: bool)
      requires Wired() && CachesOk() && settings.all.maxTopics >= 1
      requires kafka.state == Inactive && kafka.configured == [TopicInfo("/a", "t")]
      modifies this, kafka, mosquitto, container
      ensures ok && kafkaContact == Stale ==>
                && kafka.subscriptions == [TopicInfo("/a", "t")] && applied.sinkTopics == [TopicInfo("/b", "t")]
                && kafka.subscriptions != TrimAll(applied.sinkTopics)
    {
      hide Unclean, FleetOk, Torn, IdleFacts, BuildPlan;
      var topic := TopicInfo("/b", "t");
      ok := ApplySelection([Selection(topic, None)], None);
      PlainPlan(topic);
      PlainTrim(topic);
      assert "/a"[1] != "/b"[1] && [TopicInfo("/a", "t")][0] != [topic][0];
    }

    // -------------------------------------------------------------- what Idle means

    /** Idle after an apply: Kafka's sink is active, and wherever setting the subscriptions was
        not skipped a sink holds exactly the applied list, trimmed; the second sink is active
        unless it was skipped or has no name; and exactly the plan's tools run. */
    lemma IdleStreams()
      requires Valid() && phase == Idle && applied.topics != []
      ensures kafka.state == Active
      ensures kafkaContact == Reached ==> kafka.subscriptions == TrimAll(applied.sinkTopics)
      ensures mosquittoContact != Skipped ==> mosquitto.state == Active
      ensures mosquittoContact == Reached ==> mosquitto.subscriptions == TrimAll(applied.sinkTopics)
      ensures BuildPlan(applied.topics).Planned?
      ensures var plan := BuildPlan(applied.topics).plan;
              && plan.sinkTopics == applied.sinkTopics && Runs(Books(), plan.tools)
              && (DistinctInputs(plan.tools) ==> |tools| == |plan.tools|)
              && (forall i :: 0 <= i < |plan.tools| && LastOfInput(plan.tools, i) ==>
                    && plan.tools[i].input in tools && tools[plan.tools[i].input].id in container.nodes
                    && container.nodes[tools[plan.tools[i].input].id] == plan.tools[i])
              && (forall k :: k in tools ==> exists i :: 0 <= i < |plan.tools| && plan.tools[i].input == k)
    {
      var plan := BuildPlan(applied.topics).plan;
      RunsMeans(Books(), plan.tools);
      if DistinctInputs(plan.tools) {
        DistinctPlanRunsWhole(plan.tools);
        assert |tools| == |tools.Keys| == |Wanted(plan.tools).Keys|;
      }
    }

    /** Idle after an apply of topics without tools that reached both sinks. */
    lemma StreamsPlain(topics: seq<TopicInfo>)
      requires Valid() && phase == Idle && topics != [] && ReachedAll()
      requires applied.topics == file.topics == Plain(topics) && BuildPlan(Plain(topics)) == Planned(Plan([], topics))
      ensures applied == file == Snapshot(Plain(topics), topics) && tools == map[]
      ensures kafka.Seen() == View(Active, TrimAll(topics))
      ensures settings.mosquittoNamed ==> mosquitto.Seen() == View(Active, TrimAll(topics))
    {
      hide Unclean, FleetOk, TrimAll, BuildPlan;
      RunsNothing(Books());
    }

    /** Where both sinks are named and required, and the applied names and types are trimmed,
        both stream exactly the applied list. */
    lemma IdleStreamsExactly()
      requires Valid() && phase == Idle && applied.topics != []
      requires settings.kafkaNamed && settings.mosquittoNamed && !settings.allowMissing
      requires forall i :: 0 <= i < |applied.sinkTopics| ==>
                 Trimmed(applied.sinkTopics[i].name) && Trimmed(applied.sinkTopics[i].kind)
      ensures kafka.Seen() == mosquitto.Seen() == View(Active, applied.sinkTopics)
    {
      IdleStreams();
      TrimmedListsSurvive(applied.sinkTopics);
    }

    /** Idle with nothing applied: no tool is tracked, and no sink that was reached is active. */
    lemma IdleIsQuiet()
      requires Valid() && phase == Idle && applied.topics == []
      ensures tools == map[]
      ensures kafkaContact == Reached ==> kafka.state != Active
      ensures mosquittoContact == Reached ==> mosquitto.state != Active
      ensures (&& settings.kafkaNamed && settings.mosquittoNamed && !settings.allowMissing
               && kafkaContact != Untouched && mosquittoContact != Untouched) ==>
                kafka.state != Active && mosquitto.state != Active
    {
    }

    /** A torn table never sees Idle again: no handler mends it. */
    lemma TornIsNeverIdle()
      requires Valid() && Torn(Books())
      ensures phase != Idle
    {
    }

    /** In any phase, each node the controller loaded that still runs is tracked or one of the
        leaked ones, of which there are as many as loads lost and entries overwritten; in Idle
        every tracked node runs. */
    lemma NoToolLeaks()
      requires Valid()
      ensures |leaked| == lost + overwritten
      ensures forall id :: id in container.nodes && id !in foreign && id !in leaked ==> Tracks(tools, id)
      ensures phase == Idle ==> forall id :: Tracks(tools, id) ==> id in container.nodes
    {
      NoLeakIff(Books());
      if phase == Idle && Torn(Books()) {
        TornIsNeverIdle();
      }
    }
  }

  /** From the start of the controller, over any requests: as long as every load request was
      answered and no selection file repeats a tool's input, every node the controller loaded
      that still runs is in its table, in every phase; in Idle exactly the nodes of the table
      run beside those that were there before. */
  method FromStart(
    settings: Settings, mode: Mode, path: string, autoApply: bool,
    kafka: SinkNode, mosquitto: SinkNode, container: Container, remote: nat -> Remote,
    reports: nat -> Option<seq<TopicInfo>>, requests: seq<Request>)
    returns (c: DispatcherController)
    requires kafka != mosquitto && kafka.Valid() && mosquitto.Valid() && container.Valid()
    modifies kafka, mosquitto, container
    ensures fresh(c) && c.Valid() && c.phase != Busy && c.container == container
    ensures c.lost <= c.loadTimeouts <= c.Faults()
    ensures (&& c.loadTimeouts == 0
             && forall i :: 0 <= i < |requests| ==> RequestDistinct(requests[i])) ==>
              forall id :: id in container.nodes && id !in old(container.nodes) ==> Tracks(c.tools, id)
    ensures c.phase == Idle ==> forall id :: Tracks(c.tools, id) ==> id in container.nodes
  {
    hide Unclean, FleetOk, SnapshotsOk, IdleFacts, RequestDistinct, Torn, Tracks;
    c := new DispatcherController(
      settings, mode, path, autoApply, kafka, mosquitto, container, remote, reports);
    c.Serve(requests);
    c.NoToolLeaks();
    if c.lost == 0 && c.overwritten == 0 { NoneLeaked(c.leaked); }
  }

  lemma {:induction false} PlainPlans(topics: seq<TopicInfo>)
    requires forall i :: 0 <= i < |topics| ==> topics[i].name != []
    ensures BuildPlan(Plain(topics)) == Planned(Plan([], topics))
  {
    if topics != [] {
      var n := |topics| - 1;
      PlainPlans(topics[..n]);
      assert Plain(topics)[..n] == Plain(topics[..n]);
      assert topics[..n] + [topics[n]] == topics;
    }
  }

  /** Topics without tools can be streamed as soon as there is one and no name or type is blank. */
  lemma {:induction false} PlainStreamable(topics: seq<TopicInfo>)
    requires topics != []
    requires forall i :: 0 <= i < |topics| ==> Trim(topics[i].name) != [] && Trim(topics[i].kind) != []
    ensures Streamable(Plain(topics)) && !NeedsLookup(Plain(topics))
    ensures BuildPlan(Plain(topics)) == Planned(Plan([], topics))
  {
    hide Trim, BuildPlan;
    forall i | 0 <= i < |topics| ensures topics[i].name != [] && topics[i].kind != [] {
      NotBlank(topics[i].name);
      NotBlank(topics[i].kind);
    }
    PlainPlans(topics);
  }

  lemma StreamableTyped(sel: seq<Selection>)
    ensures Streamable(sel) ==> !NeedsLookup(sel)
  {
  }

  lemma NotBlank(s: string)
    requires Trim(s) != []
    ensures s != []
  {
  }

  /** Launched in file mode, with sinks that are configured or can be, a typed file and no fault,
      the controller streams the file's topics once its timer has fired. */
  method StartupApplies(
    settings: Settings, path: string, kafka: SinkNode, mosquitto: SinkNode, container: Container,
    remote: nat -> Remote, reports: nat -> Option<seq<TopicInfo>>, topics: seq<TopicInfo>)
    returns (c: DispatcherController)
    requires kafka != mosquitto && kafka.Valid() && mosquitto.Valid() && container.Valid()
    requires kafka.state == Inactive || kafka.state == Active || (kafka.state == Unconfigured && kafka.yaml == [])
    requires mosquitto.state == Inactive || mosquitto.state == Active
             || (mosquitto.state == Unconfigured && mosquitto.yaml == [])
    requires path != [] && 0 < |topics| <= settings.all.maxTopics
    requires forall i :: 0 <= i < |topics| ==> Trim(topics[i].name) != [] && Trim(topics[i].kind) != []
    requires forall n :: remote(n) == CLEAN
    modifies kafka, mosquitto, container
    ensures fresh(c) && c.Valid()
    ensures c.phase == Idle && c.applied == c.file == Snapshot(Plain(topics), topics)
    ensures kafka.Seen() == View(Active, TrimAll(topics))
              && (settings.mosquittoNamed ==> mosquitto.Seen() == View(Active, TrimAll(topics)))
              && c.tools == map[] && c.mode == File && c.filePath == path
  {
    hide Unclean, FleetOk, Torn, Completes, Trim, TrimAll, Runs, IdleFacts, SnapshotsOk, Streamable, NeedsLookup,
         BuildPlan, Typable, Plain;
    c := new DispatcherController(settings, File, path, true, kafka, mosquitto, container, remote, reports);
    PlainStreamable(topics);
    CompletesItself(Plain(topics));
    NothingTorn(c.Books());
    TypedIsTypable(Plain(topics));
    assert c.Willing();
    ghost var ok := c.OnStartupTimer(Some(Plain(topics)));
    AllClean(remote, c.calls);
    c.StreamsPlain(topics);
  }

  lemma TypedIsTypable(sel: seq<Selection>)
    requires !NeedsLookup(sel)
    ensures Typable(sel, None) && forall reply :: Typable(sel, reply)
  {
  }

  lemma {:induction false} AllClean(remote: nat -> Remote, n: nat)
    requires forall i :: remote(i) == CLEAN
    ensures Unclean(remote, n) == 0
  {
    if n > 0 { AllClean(remote, n - 1); }
  }

  lemma NothingTorn(f: Fleet)
    requires f.tools == map[]
    ensures !Torn(f)
  {
  }

  lemma RunsNothing(f: Fleet)
    requires Runs(f, [])
    ensures f.tools == map[]
  {
    assert Wanted([]) == map[];
    assert f.tools.Keys == {};
  }

  lemma NoneLeaked(leaked: set<nat>)
    requires |leaked| == 0
    ensures leaked == {}
  {
  }

  function Infos(sel: seq<Selection>): seq<TopicInfo> {
    if sel == [] then [] else Infos(sel[..|sel| - 1]) + [sel[|sel| - 1].topic]
  }

  lemma NothingPlanned(s: Snapshot)
    requires Coherent(s) && s.topics == []
    ensures s.sinkTopics == []
  {
  }
}
