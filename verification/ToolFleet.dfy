/** The tool nodes in the component container against the controller's own table of them.
    A node the controller loaded is tracked in the table, or it is leaked: nothing will ever
    unload it.
 */
module ToolFleet {
  import opened TopicPlan

  datatype ActiveTool = ActiveTool(id: nat, config: Tool)

  /** `tools` is the controller's table by input topic, `nodes` what the container runs, and
      `foreign` what it ran before the controller started. The last three fields are history:
      which nodes were leaked, and the two ways it happened. */
  datatype Fleet = Fleet(
    tools: map<string, ActiveTool>, nodes: map<nat, Tool>, nextId: nat, foreign: set<nat>,
    leaked: set<nat>, lost: nat, overwritten: nat)

  ghost predicate Tracks(tools: map<string, ActiveTool>, id: nat) {
    exists k :: k in tools && tools[k].id == id
  }

  ghost predicate DistinctIds(tools: map<string, ActiveTool>) {
    forall i, k :: i in tools && k in tools && i != k ==> tools[i].id != tools[k].id
  }

  /** One node: foreign, tracked or leaked, and only one of these. */
  ghost predicate NodeOk(f: Fleet, id: nat) {
    && (id in f.nodes || Tracks(f.tools, id) ==> id < f.nextId)
    && (id in f.foreign ==> id in f.nodes && !Tracks(f.tools, id))
    && (id in f.leaked ==> id in f.nodes && !Tracks(f.tools, id) && id !in f.foreign)
    && (id in f.nodes ==> id in f.foreign || id in f.leaked || Tracks(f.tools, id))
  }

  ghost predicate ConfigsOk(tools: map<string, ActiveTool>, nodes: map<nat, Tool>) {
    forall k :: k in tools && tools[k].id in nodes ==> nodes[tools[k].id] == tools[k].config
  }

  ghost predicate FleetOk(f: Fleet) {
    && DistinctIds(f.tools)
    && (forall id :: NodeOk(f, id))
    && ConfigsOk(f.tools, f.nodes)
    && |f.leaked| == f.lost + f.overwritten
  }

  /** A table entry whose node is gone: an unload that took effect while the clearing failed. */
  ghost predicate Torn(f: Fleet) {
    exists k :: k in f.tools && f.tools[k].id !in f.nodes
  }

  /** The table and the container are as wanted by the tools in turn, the last one winning
      when two share an input topic. */
  function Wanted(ts: seq<Tool>): map<string, Tool> {
    if ts == [] then map[] else Wanted(ts[..|ts| - 1])[ts[|ts| - 1].input := ts[|ts| - 1]]
  }

  ghost predicate Runs(f: Fleet, ts: seq<Tool>) {
    && f.tools.Keys == Wanted(ts).Keys
    && (forall k :: k in f.tools ==> f.tools[k].config == Wanted(ts)[k])
    && !Torn(f)
  }

  ghost predicate DistinctInputs(ts: seq<Tool>) {
    forall i, k :: 0 <= i < k < |ts| ==> ts[i].input != ts[k].input
  }

  /** The container takes a new node that the controller has not recorded. */
  function Loaded(f: Fleet, t: Tool): Fleet {
    f.(nodes := f.nodes[f.nextId := t], nextId := f.nextId + 1)
  }

  /** The answer to a load that took effect was lost. */
  function LostLoad(f: Fleet, t: Tool): Fleet {
    Loaded(f, t).(leaked := f.leaked + {f.nextId}, lost := f.lost + 1)
  }

  /** A load answered and recorded; an entry under the same input topic is overwritten. */
  function Recorded(f: Fleet, t: Tool): Fleet {
    var r := Loaded(f, t).(tools := f.tools[t.input := ActiveTool(f.nextId, t)]);
    if t.input in f.tools then
      r.(leaked := f.leaked + {f.tools[t.input].id}, overwritten := f.overwritten + 1)
    else r
  }

  /** The container drops a node; the table stands. */
  function Unloaded(f: Fleet, id: nat): Fleet {
    f.(nodes := f.nodes - {id})
  }

  lemma LostLoadKeepsOk(f: Fleet, t: Tool)
    requires FleetOk(f)
    ensures FleetOk(LostLoad(f, t)) && (Torn(f) ==> Torn(LostLoad(f, t)))
  {
    var r := LostLoad(f, t);
    assert NodeOk(f, f.nextId);
    forall id ensures NodeOk(r, id) { assert NodeOk(f, id); }
    TrackedBelow(f);
    if Torn(f) {
      var k :| k in f.tools && f.tools[k].id !in f.nodes;
      assert r.tools[k].id !in r.nodes;
    }
  }

  lemma TrackedBelow(f: Fleet)
    requires FleetOk(f)
    ensures forall k :: k in f.tools ==> f.tools[k].id < f.nextId
  {
    forall k | k in f.tools ensures f.tools[k].id < f.nextId {
      assert NodeOk(f, f.tools[k].id);
    }
  }

  /** Recording keeps the books when no entry is torn: whatever is overwritten still runs. */
  lemma RecordedKeepsOk(f: Fleet, t: Tool)
    requires FleetOk(f) && !Torn(f)
    ensures FleetOk(Recorded(f, t)) && !Torn(Recorded(f, t))
  {
    hide NodeOk, Torn, Tracks;
    var r := Recorded(f, t);
    TrackedBelow(f);
    forall id ensures NodeOk(r, id) {
      RecordedNode(f, t, id);
    }
    RecordedCounts(f, t);
    RecordedTorn(f, t);
  }

  lemma RecordedCounts(f: Fleet, t: Tool)
    requires FleetOk(f)
    ensures var r := Recorded(f, t); |r.leaked| == r.lost + r.overwritten
  {
    if t.input in f.tools {
      assert Tracks(f.tools, f.tools[t.input].id);
      assert NodeOk(f, f.tools[t.input].id);
    }
  }

  lemma RecordedTorn(f: Fleet, t: Tool)
    requires !Torn(f)
    ensures !Torn(Recorded(f, t))
  {
  }

  lemma RecordedNode(f: Fleet, t: Tool, id: nat)
    requires DistinctIds(f.tools) && NodeOk(f, id) && !Torn(f)
    requires forall k :: k in f.tools ==> f.tools[k].id < f.nextId
    ensures NodeOk(Recorded(f, t), id)
  {
    var r := Recorded(f, t);
    if id == f.nextId {
      assert r.tools[t.input].id == id;
    } else if t.input in f.tools && id == f.tools[t.input].id {
      assert !Tracks(r.tools, id);
    } else if Tracks(f.tools, id) {
      var k :| k in f.tools && f.tools[k].id == id;
      assert r.tools[k].id == id;
    } else {
      assert !Tracks(r.tools, id);
    }
  }

  lemma {:induction false} RecordedRuns(f: Fleet, ts: seq<Tool>)
    requires ts != [] && FleetOk(f) && Runs(f, ts[..|ts| - 1])
    ensures Runs(Recorded(f, ts[|ts| - 1]), ts)
  {
    hide FleetOk;
    RecordedKeepsOk(f, ts[|ts| - 1]);
  }

  lemma UnloadedKeepsOk(f: Fleet, k: string)
    requires FleetOk(f) && k in f.tools
    ensures var r := Unloaded(f, f.tools[k].id); FleetOk(r) && Torn(r)
  {
    var r := Unloaded(f, f.tools[k].id);
    assert r.tools[k].id !in r.nodes;
    assert Tracks(f.tools, f.tools[k].id);
    forall id ensures NodeOk(r, id) { assert NodeOk(f, id); }
    assert NodeOk(f, f.tools[k].id);
  }

  /** The table may be emptied once every tracked node is gone. */
  lemma ClearedKeepsOk(f: Fleet)
    requires FleetOk(f) && forall k :: k in f.tools ==> f.tools[k].id !in f.nodes
    ensures var r := f.(tools := map[]); FleetOk(r) && Runs(r, [])
  {
    var r := f.(tools := map[]);
    forall id ensures NodeOk(r, id) { assert NodeOk(f, id); }
  }

  /** Overwriting an entry needs two tools with one input topic. */
  lemma {:induction false} WantedKeys(ts: seq<Tool>, input: string)
    ensures input in Wanted(ts) <==> exists i :: 0 <= i < |ts| && ts[i].input == input
  {
    if ts != [] {
      var n := |ts| - 1;
      WantedKeys(ts[..n], input);
      if input in Wanted(ts[..n]) {
        var i :| 0 <= i < n && ts[..n][i].input == input;
        assert ts[i].input == input;
      }
      forall i | 0 <= i < n && ts[i].input == input ensures input in Wanted(ts[..n]) {
        assert ts[..n][i].input == input;
      }
    }
  }

  lemma WantedNothing()
    ensures |Wanted([])| == 0
  {
  }

  lemma WantedSize(ts: seq<Tool>)
    requires ts != []
    ensures var front, t := Wanted(ts[..|ts| - 1]), ts[|ts| - 1];
            |Wanted(ts)| == |front| + (if t.input in front then 0 else 1)
  {
    var front, t := Wanted(ts[..|ts| - 1]), ts[|ts| - 1];
    assert Wanted(ts).Keys == front.Keys + {t.input};
    assert |Wanted(ts)| == |Wanted(ts).Keys| && |front| == |front.Keys|;
  }

  /** Two tools on one input topic: the first one's node is leaked the moment the second is
      recorded, so without distinct inputs the table does not track everything that runs. */
  lemma SameInputLeaks(f: Fleet, t: Tool, u: Tool)
    requires FleetOk(f) && !Torn(f) && t.input == u.input
    ensures var r := Recorded(Recorded(f, t), u);
            f.nextId in r.leaked && f.nextId in r.nodes && !Tracks(r.tools, f.nextId)
  {
    hide FleetOk, NodeOk;
    RecordedKeepsOk(f, t);
    RecordedKeepsOk(Recorded(f, t), u);
    LeakedIsUntracked(Recorded(Recorded(f, t), u), f.nextId);
  }

  lemma LeakedIsUntracked(f: Fleet, id: nat)
    requires FleetOk(f) && id in f.leaked
    ensures id in f.nodes && !Tracks(f.tools, id)
  {
    assert NodeOk(f, id);
  }

  lemma DistinctNeverOverwrites(ts: seq<Tool>, i: nat)
    requires i < |ts| && DistinctInputs(ts)
    ensures ts[i].input !in Wanted(ts[..i])
  {
    WantedKeys(ts[..i], ts[i].input);
  }

  /** As many nodes are leaked as loads were lost and entries overwritten; every other node the
      controller loaded is tracked, and in an untorn table exactly the tracked ones run. */
  lemma NoLeakIff(f: Fleet)
    requires FleetOk(f)
    ensures |f.leaked| == f.lost + f.overwritten
    ensures forall id :: id in f.nodes && id !in f.foreign ==> id in f.leaked || Tracks(f.tools, id)
    ensures !Torn(f) ==> forall id :: Tracks(f.tools, id) ==> id in f.nodes && id !in f.leaked
  {
    forall id ensures id in f.nodes && id !in f.foreign ==> id in f.leaked || Tracks(f.tools, id) {
      assert NodeOk(f, id);
    }
    if !Torn(f) {
      forall id | Tracks(f.tools, id) ensures id in f.nodes && id !in f.leaked {
        assert NodeOk(f, id);
      }
    }
  }

  /** With distinct inputs the plan runs whole: as many tools as the plan lists, each under
      its own input. */
  lemma {:induction false} DistinctPlanRunsWhole(ts: seq<Tool>)
    requires DistinctInputs(ts)
    ensures |Wanted(ts)| == |ts|
    ensures forall i :: 0 <= i < |ts| ==> ts[i].input in Wanted(ts) && Wanted(ts)[ts[i].input] == ts[i]
  {
    if ts != [] {
      var n := |ts| - 1;
      DistinctPlanRunsWhole(ts[..n]);
      DistinctNeverOverwrites(ts, n);
      assert Wanted(ts).Keys == Wanted(ts[..n]).Keys + {ts[n].input};
      assert forall i :: 0 <= i < n ==> ts[..n][i] == ts[i];
    }
  }

  /** And only then: a repeated input costs one entry. */
  lemma {:induction false} WholePlanIsDistinct(ts: seq<Tool>)
    ensures |Wanted(ts)| <= |ts|
    ensures |Wanted(ts)| == |ts| ==> DistinctInputs(ts)
  {
    if ts != [] {
      var n := |ts| - 1;
      var front := ts[..n];
      WholePlanIsDistinct(front);
      WantedSize(ts);
      if |Wanted(ts)| == |ts| {
        forall i, k | 0 <= i < k < |ts| ensures ts[i].input != ts[k].input {
          if k < n {
            assert front[i].input != front[k].input;
          } else {
            WantedKeys(front, ts[n].input);
            assert front[i].input == ts[i].input;
          }
        }
      }
    }
  }

  /** The last tool of its input topic. */
  predicate LastOfInput(ts: seq<Tool>, i: nat) {
    i < |ts| && forall j :: i < j < |ts| ==> ts[j].input != ts[i].input
  }

  lemma {:induction false} WantedIsLast(ts: seq<Tool>, i: nat)
    requires LastOfInput(ts, i)
    ensures ts[i].input in Wanted(ts) && Wanted(ts)[ts[i].input] == ts[i]
  {
    var n := |ts| - 1;
    if i < n {
      assert ts[n].input != ts[i].input;
      assert forall j :: 0 <= j < n ==> ts[..n][j] == ts[j];
      WantedIsLast(ts[..n], i);
    }
  }

  lemma {:induction false} LastExists(ts: seq<Tool>, input: string) returns (i: nat)
    requires input in Wanted(ts)
    ensures LastOfInput(ts, i) && ts[i].input == input
  {
    var n := |ts| - 1;
    if ts[n].input == input {
      i := n;
    } else {
      assert forall j :: 0 <= j < n ==> ts[..n][j] == ts[j];
      i := LastExists(ts[..n], input);
    }
  }

  /** What it means that tools run: for each input topic the last tool that reads it has its node
      in the container, and the table has no other entry. */
  lemma RunsMeans(f: Fleet, ts: seq<Tool>)
    requires FleetOk(f) && Runs(f, ts)
    ensures forall i :: 0 <= i < |ts| && LastOfInput(ts, i) ==>
              && ts[i].input in f.tools && f.tools[ts[i].input].id in f.nodes
              && f.nodes[f.tools[ts[i].input].id] == ts[i]
    ensures forall k :: k in f.tools ==> exists i :: 0 <= i < |ts| && ts[i].input == k
  {
    hide NodeOk, DistinctIds, Wanted;
    forall i | 0 <= i < |ts| && LastOfInput(ts, i)
      ensures ts[i].input in f.tools && f.tools[ts[i].input].id in f.nodes
              && f.nodes[f.tools[ts[i].input].id] == ts[i]
    {
      WantedIsLast(ts, i);
    }
    forall k | k in f.tools ensures exists i :: 0 <= i < |ts| && ts[i].input == k {
      var i := LastExists(ts, k);
      assert ts[i].input == k;
    }
  }

  // ---------------------------------------------------------------- tools of a selection

  /** No two enabled tools of a selection read the same topic. */
  predicate ToolInputsDistinct(sel: seq<Selection>) {
    forall i, k :: 0 <= i < k < |sel| && Enabled(sel[i]) && Enabled(sel[k]) ==>
      sel[i].topic.name != sel[k].topic.name
  }

  predicate Reads(e: Selection, input: string) {
    Enabled(e) && e.topic.name == input
  }

  predicate HasReader(sel: seq<Selection>, input: string) {
    exists i :: 0 <= i < |sel| && Reads(sel[i], input)
  }

  predicate HasInput(ts: seq<Tool>, input: string) {
    exists i :: 0 <= i < |ts| && ts[i].input == input
  }

  lemma ReaderFirst(sel: seq<Selection>, input: string)
    requires sel != []
    ensures HasReader(sel, input) <==> Reads(sel[0], input) || HasReader(sel[1..], input)
  {
    hide Reads;
    if HasReader(sel[1..], input) {
      var i :| 0 <= i < |sel| - 1 && Reads(sel[1..][i], input);
      assert Reads(sel[i + 1], input);
    }
    forall i | 0 < i < |sel| && Reads(sel[i], input) ensures HasReader(sel[1..], input) {
      assert Reads(sel[1..][i - 1], input);
    }
  }

  lemma InputFirst(t: Tool, rest: seq<Tool>, input: string)
    ensures HasInput([t] + rest, input) <==> t.input == input || HasInput(rest, input)
  {
    var ts := [t] + rest;
    if HasInput(rest, input) {
      var i :| 0 <= i < |rest| && rest[i].input == input;
      assert ts[i + 1].input == input;
    }
    if t.input == input { assert ts[0].input == input; }
    forall i | 0 < i < |ts| && ts[i].input == input ensures HasInput(rest, input) {
      assert rest[i - 1].input == input;
    }
  }

  lemma {:induction false} ToolsRead(sel: seq<Selection>, input: string)
    ensures HasInput(ToolsOf(sel), input) <==> HasReader(sel, input)
  {
    hide HasInput, HasReader;
    if sel == [] {
      NobodyReads(input);
    } else {
      var rest := ToolsOf(sel[1..]);
      ToolsRead(sel[1..], input);
      ReaderFirst(sel, input);
      if Enabled(sel[0]) {
        InputFirst(ToolOf(sel[0]), rest, input);
      } else {
        assert [] + rest == rest;
      }
    }
  }

  lemma NobodyReads(input: string)
    ensures !HasInput([], input) && !HasReader([], input)
  {
  }

  /** The inputs of a selection's tools are distinct exactly when the names of its entries with
      an enabled tool are. */
  lemma {:induction false} InputsDistinctIff(sel: seq<Selection>)
    ensures DistinctInputs(ToolsOf(sel)) <==> ToolInputsDistinct(sel)
  {
    hide HasInput, HasReader, DistinctInputs, ToolInputsDistinct;
    if sel == [] {
      NothingRepeats();
    } else {
      var rest := ToolsOf(sel[1..]);
      InputsDistinctIff(sel[1..]);
      ToolsRead(sel[1..], sel[0].topic.name);
      FirstDistinct(sel);
      if Enabled(sel[0]) {
        FirstInputDistinct(ToolOf(sel[0]), rest);
      } else {
        assert [] + rest == rest;
      }
    }
  }

  lemma NothingRepeats()
    ensures DistinctInputs([]) && ToolInputsDistinct([])
  {
  }

  lemma FirstDistinct(sel: seq<Selection>)
    requires sel != []
    ensures ToolInputsDistinct(sel) <==>
            ToolInputsDistinct(sel[1..]) && (Enabled(sel[0]) ==> !HasReader(sel[1..], sel[0].topic.name))
  {
    hide Enabled;
    var rest := sel[1..];
    assert forall i :: 0 <= i < |rest| ==> rest[i] == sel[i + 1];
    if ToolInputsDistinct(sel) && Enabled(sel[0]) {
      forall i | 0 <= i < |rest| ensures !Reads(rest[i], sel[0].topic.name) {
        assert rest[i] == sel[i + 1];
      }
    }
    if ToolInputsDistinct(rest) && (Enabled(sel[0]) ==> !HasReader(rest, sel[0].topic.name)) {
      forall i, k | 0 <= i < k < |sel| && Enabled(sel[i]) && Enabled(sel[k])
        ensures sel[i].topic.name != sel[k].topic.name
      {
        assert sel[k] == rest[k - 1];
        if i == 0 {
          assert !Reads(rest[k - 1], sel[0].topic.name);
        } else {
          assert sel[i] == rest[i - 1];
        }
      }
    }
  }

  lemma FirstInputDistinct(t: Tool, rest: seq<Tool>)
    ensures DistinctInputs([t] + rest) <==> DistinctInputs(rest) && !HasInput(rest, t.input)
  {
    var ts := [t] + rest;
    assert forall i :: 0 <= i < |rest| ==> rest[i] == ts[i + 1];
    if DistinctInputs(ts) {
      forall i | 0 <= i < |rest| ensures rest[i].input != t.input {
        assert ts[0] == t && rest[i] == ts[i + 1];
      }
    }
    if DistinctInputs(rest) && !HasInput(rest, t.input) {
      forall i, k | 0 <= i < k < |ts| ensures ts[i].input != ts[k].input {
        assert ts[k] == rest[k - 1];
        if i > 0 { assert ts[i] == rest[i - 1]; }
      }
    }
  }

  /** Filling in types changes neither names nor tools. */
  lemma CompletedInputs(full: seq<Selection>, sel: seq<Selection>)
    requires Completes(full, sel)
    ensures ToolInputsDistinct(full) <==> ToolInputsDistinct(sel)
  {
    assert forall i :: 0 <= i < |sel| ==> CompletesAt(full[i], sel[i]);
  }

  /** A plan repeats an input exactly when the selection it completes does. */
  lemma PlanInputs(plan: Plan, full: seq<Selection>, sel: seq<Selection>)
    requires BuildPlan(full) == Planned(plan) && Completes(full, sel)
    ensures DistinctInputs(plan.tools) <==> ToolInputsDistinct(sel)
  {
    PlanPositions(full);
    InputsDistinctIff(full);
    CompletedInputs(full, sel);
  }
}
