/** The nodes the controller drives: the lifecycle sinks with their own guards, and the
    component container. What these nodes cannot promise (a producer that does not start, a
    plugin that does not load) is the trouble a call meets.
 */
module RemoteNodes {
  import opened Options
  import opened TopicPlan

  datatype SinkState = Unconfigured | Inactive | Active | Finalized

  /** What can go wrong inside a node while it serves a call: early, or late, after some of the
      subscriptions, where it may throw. */
  datatype Trouble = NoTrouble | Early | Late(place: nat, throws: bool)

  datatype Transition = Configure | Activate | Deactivate

  function Source(t: Transition): SinkState {
    match t
    case Configure => Unconfigured
    case Activate => Inactive
    case Deactivate => Active
  }

  function Target(t: Transition): SinkState {
    match t
    case Configure => Inactive
    case Activate => Active
    case Deactivate => Inactive
  }

  /** What anyone sees of a sink: its state and the subscriptions it holds. */
  datatype View = View(state: SinkState, subscriptions: seq<TopicInfo>)

  class SinkNode {
    var state: SinkState
    var yaml: seq<TopicInfo>
    var configured: seq<TopicInfo>
    var subscriptions: seq<TopicInfo>

    /** An active sink holds exactly the subscriptions it is configured for. The stored parameter
        may be one the sink does not accept: what it is launched with is not looked at. */
    ghost predicate Valid() reads this {
      state == Active ==> subscriptions == configured
    }

    /** Nothing the sink holds keeps it from being activated. */
    predicate Ready() reads this {
      state != Finalized && (state == Unconfigured ==> SinkAccepts(yaml))
    }

    function Seen(): View reads this {
      View(state, subscriptions)
    }

    /** What the sink would stream if it were configured as needed and activated now. */
    function Standing(): seq<TopicInfo> reads this {
      if state == Unconfigured then TrimAll(yaml) else configured
    }

    constructor (launched: seq<TopicInfo>)
      ensures Valid() && state == Unconfigured && yaml == launched
    {
      state, yaml, configured, subscriptions := Unconfigured, launched, [], [];
    }

    /** A `subscriptions_yaml` update. It is refused while active; an invalid QoS depth left by
        an earlier configuration refuses it after the list is committed. */
    method OnParametersSet(subs: seq<TopicInfo>, trouble: Trouble) returns (ok: bool)
      requires Valid()
      modifies this`yaml, this`configured
      ensures Valid()
      ensures ok <==> old(state) != Active && SinkAccepts(subs) && trouble == NoTrouble
      ensures old(state) == Active || !SinkAccepts(subs) ==> configured == old(configured)
      ensures old(state) != Active && SinkAccepts(subs) ==> configured == TrimAll(subs)
      ensures yaml == if ok then subs else old(yaml)
    {
      if state == Active { return false; }
      var parsed := ParseSubscriptions(subs);
      if parsed.None? { return false; }
      configured := parsed.value;
      if trouble != NoTrouble { return false; }
      yaml := subs;
      ok := true;
    }

    /** A lifecycle transition: taken from its source state only, and configuring only with a
        list the sink accepts; one that fails never leaves the sink active. */
    method ChangeState(t: Transition, trouble: Trouble) returns (ok: bool)
      requires Valid()
      modifies this`state, this`configured, this`subscriptions
      ensures Valid()
      ensures ok ==>
                match t
                case Configure => old(state) == Unconfigured && state == Inactive
                case Activate => old(state) == Inactive && state == Active
                case Deactivate => old(state) == Active && state == Inactive
      ensures (&& old(state) == Source(t) && (t == Configure ==> SinkAccepts(yaml))
               && (t == Deactivate || trouble == NoTrouble)) ==> ok
      ensures ok ==> state == Target(t)
      ensures old(state) != Source(t) ==>
                !ok && state == old(state) && configured == old(configured) && subscriptions == old(subscriptions)
      ensures !ok && old(state) == Source(t) ==>
                t != Deactivate && state != Active && (trouble == NoTrouble ==> state == old(state))
      ensures ok && t == Configure ==> SinkAccepts(yaml) && configured == TrimAll(yaml)
      ensures t != Configure ==> configured == old(configured)
      ensures ok && t == Deactivate ==> subscriptions == []
    {
      if state != Source(t) { return false; }
      match t {
        case Configure =>
          ok := OnConfigure(trouble);
        case Activate =>
          ok := OnActivate(trouble);
        case Deactivate =>
          subscriptions := [];
          state, ok := Inactive, true;
      }
    }

    /** Other parameters may be refused before the list is read or after it is committed. */
    method OnConfigure(trouble: Trouble) returns (ok: bool)
      requires Valid() && state == Unconfigured
      modifies this`state, this`configured
      ensures Valid()
      ensures ok <==> SinkAccepts(yaml) && trouble == NoTrouble
      ensures state == if ok then Inactive else Unconfigured
      ensures ok ==> configured == TrimAll(yaml)
      ensures !SinkAccepts(yaml) ==> configured == old(configured)
    {
      if trouble == Early { return false; }
      var parsed := ParseSubscriptions(yaml);
      if parsed.None? { return false; }
      configured := parsed.value;
      if trouble != NoTrouble { return false; }
      state, ok := Inactive, true;
    }

    /** The producer may not start; a subscription may not be created, or throw. */
    method OnActivate(trouble: Trouble) returns (ok: bool)
      requires Valid() && state == Inactive
      modifies this`state, this`subscriptions
      ensures Valid()
      ensures ok <==> !(trouble == Early || (trouble.Late? && trouble.place < |configured|))
      ensures ok ==> state == Active && subscriptions == configured
      ensures !ok ==> state == if trouble.Late? && trouble.throws then Finalized else Inactive
    {
      if trouble == Early { return false; }
      subscriptions := [];
      var i := 0;
      while i < |configured|
        invariant 0 <= i <= |configured| && subscriptions == configured[..i] && state == Inactive
        invariant trouble.Late? && trouble.place < |configured| ==> i <= trouble.place
      {
        if trouble.Late? && trouble.place == i {
          if trouble.throws { state := Finalized; }
          return false;
        }
        subscriptions := subscriptions + [configured[i]];
        i := i + 1;
      }
      state, ok := Active, true;
    }
  }

  /** The container hands out increasing ids and never reuses one. */
  class Container {
    var nodes: map<nat, Tool>
    var nextId: nat

    ghost predicate Valid() reads this {
      forall id :: id in nodes ==> id < nextId
    }

    constructor ()
      ensures Valid() && nodes == map[] && nextId == 0
    {
      nodes, nextId := map[], 0;
    }

    method LoadNode(tool: Tool, trouble: Trouble) returns (id: Option<nat>)
      modifies this
      ensures id.Some? <==> trouble == NoTrouble
      ensures id.Some? ==> id.value == old(nextId) && nextId == old(nextId) + 1
                           && nodes == old(nodes)[id.value := tool]
      ensures id.None? ==> nodes == old(nodes) && nextId == old(nextId)
    {
      if trouble != NoTrouble { return None; }
      id := Some(nextId);
      nodes := nodes[nextId := tool];
      nextId := nextId + 1;
    }

    method UnloadNode(id: nat) returns (ok: bool)
      modifies this`nodes
      ensures ok == (id in old(nodes)) && nodes == old(nodes) - {id}
    {
      ok := id in nodes;
      nodes := nodes - {id};
    }
  }
}
