/** The per-connection stream registry of kube_hub.go: kubeClient.cancels, written by
    startStream, cancelStream and cleanup under the client's mutex. */
module StreamRegistry {
  import opened Text
  import opened Wrappers

  datatype PodPayload = PodPayload(cluster: string, namespace: string, pod: string, container: string) {
    function Key(): string {
      cluster + "/" + namespace + "/" + pod + "/" + container
    }

    function TopologyKey(): string {
      cluster + "/" + namespace
    }
  }

  /** A websocket message; the payload is None when its JSON does not decode. */
  datatype Message = Message(event: string, payload: Option<PodPayload>)

  // What a message asks for

  /** The key of the stream a message starts. */
  ghost function Starts(msg: Message): Option<string> {
    if msg.payload.None? then None
    else if msg.event == "pod-logs:subscribe" then Some("logs:" + msg.payload.value.Key())
    else if msg.event == "pod-stats:subscribe" then Some("stats:" + msg.payload.value.Key())
    else if msg.event == "topology:watch" then Some("topology:" + msg.payload.value.TopologyKey())
    else None
  }

  /** The key of the stream a message stops. */
  ghost function Stops(msg: Message): Option<string> {
    if msg.payload.None? then None
    else if msg.event == "pod-logs:unsubscribe" then Some("logs:" + msg.payload.value.Key())
    else if msg.event == "pod-stats:unsubscribe" then Some("stats:" + msg.payload.value.Key())
    else if msg.event == "topology:unwatch" then Some("topology:" + msg.payload.value.TopologyKey())
    else None
  }

  /** The stream a message is about. */
  function About(msg: Message): Option<Target> {
    if msg.payload.None? then None
    else if msg.event in {"pod-logs:subscribe", "pod-logs:unsubscribe"} then Some(PodLogs(msg.payload.value))
    else if msg.event in {"pod-stats:subscribe", "pod-stats:unsubscribe"} then Some(PodStats(msg.payload.value))
    else if msg.event in {"topology:watch", "topology:unwatch"}
    then Some(Topology(msg.payload.value.cluster, msg.payload.value.namespace))
    else None
  }

  predicate Opens(msg: Message) {
    About(msg).Some? && msg.event in {"pod-logs:subscribe", "pod-stats:subscribe", "topology:watch"}
  }

  predicate Closes(msg: Message) {
    About(msg).Some? && !Opens(msg)
  }

  /** A message starts or stops the stream under the key of what it is about. */
  lemma KeysAreThoseOfTargets(msg: Message)
    ensures Starts(msg) == if Opens(msg) then Some(TargetKey(About(msg).value)) else None
    ensures Stops(msg) == if Closes(msg) then Some(TargetKey(About(msg).value)) else None
  {
    hide PodPayload.Key, PodPayload.TopologyKey;
    if msg.payload.Some? {
      SameTopologyKey(msg.payload.value);
    }
  }

  lemma SameTopologyKey(p: PodPayload)
    ensures PodPayload(p.cluster, p.namespace, "", "").TopologyKey() == p.TopologyKey()
  {
  }

  /** The stream is not the one the message is about, and the names of both are slash-free. */
  ghost predicate IsAboutOther(msg: Message, t: Target) {
    NamesFree(t) && (About(msg).Some? ==> NamesFree(About(msg).value) && t != About(msg).value)
  }

  lemma OthersKeepTheirKeys(msg: Message)
    ensures forall t :: IsAboutOther(msg, t) ==>
              Starts(msg) != Some(TargetKey(t)) && Stops(msg) != Some(TargetKey(t))
  {
    hide Starts, Stops, TargetKey, NamesFree;
    forall t | IsAboutOther(msg, t)
      ensures Starts(msg) != Some(TargetKey(t)) && Stops(msg) != Some(TargetKey(t))
    {
      KeyIsAbout(msg, t);
    }
  }

  /** After these messages the stream is wanted: one of them opened it and no later one closed it. */
  ghost predicate WantedTarget(msgs: seq<Message>, t: Target) {
    exists i :: 0 <= i < |msgs| && Opens(msgs[i]) && About(msgs[i]) == Some(t) && forall j :: i < j < |msgs| ==>
        !(Closes(msgs[j]) && About(msgs[j]) == Some(t))
  }

  ghost predicate AllFree(msgs: seq<Message>) {
    forall i :: 0 <= i < |msgs| && About(msgs[i]).Some? ==> NamesFree(About(msgs[i]).value)
  }

  /** With slash-free names, keys stand for what streams are about. */
  lemma WantedIsByTarget(msgs: seq<Message>, t: Target)
    requires AllFree(msgs) && NamesFree(t)
    ensures Wanted(msgs, TargetKey(t)) <==> WantedTarget(msgs, t)
  {
    hide Starts, Stops, TargetKey, NamesFree, Opens, Closes;
    forall i | 0 <= i < |msgs|
      ensures Starts(msgs[i]) == Some(TargetKey(t)) <==> Opens(msgs[i]) && About(msgs[i]) == Some(t)
      ensures Stops(msgs[i]) == Some(TargetKey(t)) <==> Closes(msgs[i]) && About(msgs[i]) == Some(t)
    {
      KeyIsAbout(msgs[i], t);
    }
  }

  lemma KeyIsAbout(msg: Message, t: Target)
    requires NamesFree(t) && (About(msg).Some? ==> NamesFree(About(msg).value))
    ensures Starts(msg) == Some(TargetKey(t)) <==> Opens(msg) && About(msg) == Some(t)
    ensures Stops(msg) == Some(TargetKey(t)) <==> Closes(msg) && About(msg) == Some(t)
  {
    KeysAreThoseOfTargets(msg);
    hide Starts, Stops, TargetKey, NamesFree;
    if About(msg).Some? && TargetKey(About(msg).value) == TargetKey(t) {
      KeysNeverCollide(About(msg).value, t);
    }
  }

  /** After these messages a stream is wanted under `key`: one of them started it and no later
      one stopped it. */
  ghost predicate Wanted(msgs: seq<Message>, key: string) {
    exists i :: 0 <= i < |msgs| && Starts(msgs[i]) == Some(key) && forall j :: i < j < |msgs| ==>
        Stops(msgs[j]) != Some(key)
  }

  lemma WantedAfterOneMore(msgs: seq<Message>, msg: Message, key: string)
    ensures Wanted(msgs + [msg], key) <==>
            Starts(msg) == Some(key) || (Wanted(msgs, key) && Stops(msg) != Some(key))
  {
    var all := msgs + [msg];
    if Starts(msg) == Some(key) {
      assert Starts(all[|msgs|]) == Some(key);
    } else {
      if Wanted(msgs, key) && Stops(msg) != Some(key) {
        var i :| 0 <= i < |msgs| && Starts(msgs[i]) == Some(key) && forall j :: i < j < |msgs| ==>
            Stops(msgs[j]) != Some(key);
        assert Starts(all[i]) == Some(key);
      }
      if Wanted(all, key) {
        var i :| 0 <= i < |all| && Starts(all[i]) == Some(key) && forall j :: i < j < |all| ==>
            Stops(all[j]) != Some(key);
        assert Stops(all[|msgs|]) == Stops(msg) && i < |msgs|;
        assert forall j :: i < j < |msgs| ==> Stops(msgs[j]) == Stops(all[j]);
        assert Starts(msgs[i]) == Some(key);
      }
    }
  }

  /** A context returned by context.WithCancel. */
  class StreamContext {
    var cancelled: bool

    constructor ()
      ensures !cancelled
    {
      cancelled := false;
    }

    method Cancel()
      modifies this
      ensures cancelled
    {
      cancelled := true;
    }
  }

  class KubeClient {
    var cancels: map<string, StreamContext>
    // every context handed out so far, with the key it was started under
    ghost var issued: map<StreamContext, string>

    /** The uncancelled contexts are exactly the values of `cancels`, each under its own key. */
    ghost predicate Valid()
      reads this, issued.Keys
    {
      && (forall key :: key in cancels ==> cancels[key] in issued && issued[cancels[key]] == key)
      && (forall ctx :: ctx in issued ==> (!ctx.cancelled <==> issued[ctx] in cancels && cancels[issued[ctx]] == ctx))
    }

    constructor ()
      ensures Valid() && cancels == map[] && issued == map[]
    {
      cancels := map[];
      issued := map[];
    }

    method StartStream(key: string) returns (ctx: StreamContext)
      requires Valid()
      modifies this, issued.Keys
      ensures Valid() && fresh(ctx)
      ensures cancels == old(cancels)[key := ctx]
      ensures issued == old(issued)[ctx := key]
    {
      ctx := new StreamContext();
      if key in cancels {
        cancels[key].Cancel();
      }
      cancels := cancels[key := ctx];
      issued := issued[ctx := key];
    }

    method CancelStream(key: string)
      requires Valid()
      modifies this, issued.Keys
      ensures Valid() && issued == old(issued)
      ensures cancels == old(cancels) - {key}
    {
      if key in cancels {
        cancels[key].Cancel();
        cancels := cancels - {key};
      }
    }

    method Cleanup()
      requires Valid()
      modifies this, issued.Keys
      ensures Valid() && issued == old(issued)
      ensures cancels == map[]
    {
      var rest := cancels.Keys;
      while rest != {}
        invariant rest <= cancels.Keys
        invariant cancels == old(cancels) && issued == old(issued)
        invariant forall ctx :: ctx in issued ==>
          (!ctx.cancelled <==> issued[ctx] in rest && cancels[issued[ctx]] == ctx)
        decreases rest
      {
        var key :| key in rest;
        cancels[key].Cancel();
        rest := rest - {key};
      }
      cancels := map[];
    }

    method HandleMessage(msg: Message)
      requires Valid()
      modifies this, issued.Keys
      ensures Valid()
      ensures issued.Keys >= old(issued.Keys) && fresh(issued.Keys - old(issued.Keys))
      ensures forall ctx :: ctx in old(issued) ==> issued[ctx] == old(issued)[ctx]
      ensures forall key :: key in cancels <==>
                Starts(msg) == Some(key) || (key in old(cancels) && Stops(msg) != Some(key))
      // a subscription always gets a context of its own
      ensures Starts(msg).Some? ==> cancels[Starts(msg).value] !in old(issued)
      // and the streams about anything else go on as they are
      ensures forall key :: key in old(cancels) && Starts(msg) != Some(key) && Stops(msg) != Some(key) ==>
                key in cancels && cancels[key] == old(cancels)[key]
      ensures forall t :: IsAboutOther(msg, t) ==>
                (TargetKey(t) in cancels <==> TargetKey(t) in old(cancels))
                && (TargetKey(t) in old(cancels) ==> cancels[TargetKey(t)] == old(cancels)[TargetKey(t)])
      // one that is closed is the one that was opened
      ensures Closes(msg) ==> TargetKey(About(msg).value) !in cancels
      ensures Opens(msg) ==> TargetKey(About(msg).value) in cancels
    {
      OthersKeepTheirKeys(msg);
      KeysAreThoseOfTargets(msg);
      if msg.payload.None? {
        return;
      }
      var payload := msg.payload.value;
      if msg.event == "pod-logs:subscribe" {
        var _ := StartStream("logs:" + payload.Key());
      } else if msg.event == "pod-logs:unsubscribe" {
        CancelStream("logs:" + payload.Key());
      } else if msg.event == "pod-stats:subscribe" {
        var _ := StartStream("stats:" + payload.Key());
      } else if msg.event == "pod-stats:unsubscribe" {
        CancelStream("stats:" + payload.Key());
      } else if msg.event == "topology:watch" {
        var _ := StartStream("topology:" + payload.TopologyKey());
      } else if msg.event == "topology:unwatch" {
        CancelStream("topology:" + payload.TopologyKey());
      }
    }

    /** The read loop: handles the messages of a connection in order. */
    method Serve(msgs: seq<Message>)
      requires Valid() && cancels == map[] && issued == map[]
      modifies this
      ensures Valid() && fresh(issued.Keys)
      // the live streams are the wanted ones ...
      ensures forall key :: key in cancels <==> Wanted(msgs, key)
      ensures AllFree(msgs) ==> forall t :: NamesFree(t) ==> (TargetKey(t) in cancels <==> WantedTarget(msgs, t))
      // ... and no key has two of them
      ensures forall c1, c2 :: c1 in issued && c2 in issued && !c1.cancelled && !c2.cancelled ==>
                issued[c1] == issued[c2] ==> c1 == c2
    {
      for i := 0 to |msgs|
        invariant Valid() && fresh(issued.Keys)
        invariant forall key :: key in cancels <==> Wanted(msgs[..i], key)
      {
        ghost var before := cancels;
        HandleMessage(msgs[i]);
        assert msgs[..i + 1] == msgs[..i] + [msgs[i]];
        forall key ensures key in cancels <==> Wanted(msgs[..i + 1], key) {
          WantedAfterOneMore(msgs[..i], msgs[i], key);
        }
      }
      assert msgs[..|msgs|] == msgs;
      if AllFree(msgs) {
        forall t | NamesFree(t) ensures TargetKey(t) in cancels <==> WantedTarget(msgs, t) {
          WantedIsByTarget(msgs, t);
        }
      }
    }

    /** A whole connection: whatever was requested, nothing is left running. */
    method ReadPump(msgs: seq<Message>)
      requires Valid() && cancels == map[] && issued == map[]
      modifies this
      ensures Valid() && cancels == map[]
      ensures forall ctx :: ctx in issued ==> ctx.cancelled
    {
      Serve(msgs);
      Cleanup();
    }
  }

  // Keys

  /** What a stream is about. */
  datatype Target =
    | PodLogs(pod: PodPayload)
    | PodStats(pod: PodPayload)
    | Topology(cluster: string, namespace: string)

  function TargetKey(t: Target): string {
    match t
    case PodLogs(p) => "logs:" + p.Key()
    case PodStats(p) => "stats:" + p.Key()
    case Topology(cluster, namespace) => "topology:" + PodPayload(cluster, namespace, "", "").TopologyKey()
  }

  /** Kubernetes names have no slash; a cluster name is a kubeconfig context and may have some. */
  ghost predicate NamesFree(t: Target) {
    match t
    case PodLogs(p) => Free('/', p.namespace) && Free('/', p.pod) && Free('/', p.container)
    case PodStats(p) => Free('/', p.namespace) && Free('/', p.pod) && Free('/', p.container)
    case Topology(_, namespace) => Free('/', namespace)
  }

  lemma PodKeyInjective(p: PodPayload, q: PodPayload)
    requires NamesFree(PodLogs(p)) && NamesFree(PodLogs(q))
    requires p.Key() == q.Key()
    ensures p == q
  {
    var p3, q3 := p.cluster + "/" + p.namespace + "/" + p.pod, q.cluster + "/" + q.namespace + "/" + q.pod;
    LastSeparatorSplits('/', p3, p.container, q3, q.container);
    var p2, q2 := p.cluster + "/" + p.namespace, q.cluster + "/" + q.namespace;
    LastSeparatorSplits('/', p2, p.pod, q2, q.pod);
    LastSeparatorSplits('/', p.cluster, p.namespace, q.cluster, q.namespace);
  }

  /** Streams about different things never share a key. */
  lemma KeysNeverCollide(t: Target, u: Target)
    requires NamesFree(t) && NamesFree(u)
    requires TargetKey(t) == TargetKey(u)
    ensures t == u
  {
    assert TargetKey(t)[0] == TargetKey(u)[0];
    assert TargetKey(t)[1] == TargetKey(u)[1];
    match t {
      case PodLogs(p) =>
        assert TargetKey(t)[5..] == p.Key() && TargetKey(u)[5..] == u.pod.Key();
        PodKeyInjective(p, u.pod);
      case PodStats(p) =>
        assert TargetKey(t)[6..] == p.Key() && TargetKey(u)[6..] == u.pod.Key();
        PodKeyInjective(p, u.pod);
      case Topology(c, n) =>
        assert TargetKey(t)[9..] == c + "/" + n && TargetKey(u)[9..] == u.cluster + "/" + u.namespace;
        LastSeparatorSplits('/', c, n, u.cluster, u.namespace);
    }
  }

  /** The slash-free names are needed. */
  lemma KeysCollideWithSlashes()
    ensures exists t, u :: t != u && TargetKey(t) == TargetKey(u)
  {
    var t, u := Topology("a", "b/c"), Topology("a/b", "c");
    assert TargetKey(t) == "topology:a/b/c" == TargetKey(u);
  }
}
