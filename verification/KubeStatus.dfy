/** The status rules of kube_status.go that pod attribution depends on. */
module KubeStatus {
  import opened KubeObjects
  import opened TopologyGraph

  /** statusSeverity; a status missing from that map counts as 0. */
  function Severity(s: Status): nat {
    match s
    case Unset => 0
    case Idle => 0
    case Healthy => 1
    case Warning => 2
    case Error => 3
  }

  function WorstStatus(a: Status, b: Status): Status {
    if Severity(b) > Severity(a) then b else a
  }

  /** A container held up by something that is not part of a normal pod start. */
  predicate Stuck(cs: ContainerStatus) {
    cs.waiting != "" && cs.waiting != "ContainerCreating" && cs.waiting != "PodInitializing"
  }

  function ReadyCount(statuses: seq<ContainerStatus>): nat {
    if statuses == [] then 0
    else ReadyCount(statuses[..|statuses| - 1]) + (if statuses[|statuses| - 1].ready then 1 else 0)
  }

  /** The status of a pod: being deleted outranks a stuck container, which outranks the phase. */
  function PodStatus(pod: Pod): (status: Status)
    ensures status != Unset
  {
    if pod.deleting then Warning
    else if exists i :: 0 <= i < |pod.containerStatuses| && Stuck(pod.containerStatuses[i]) then Error
    else if pod.phase == "Running" then
      if ReadyCount(pod.containerStatuses) == |pod.spec.containers| then Healthy else Warning
    else if pod.phase == "Succeeded" then Idle
    else if pod.phase == "Failed" then Error
    else Warning
  }

  /** Some container waits for something other than being created or initialised. */
  ghost predicate AnyStuck(pod: Pod) {
    exists i :: 0 <= i < |pod.containerStatuses|
                && pod.containerStatuses[i].waiting !in {"", "ContainerCreating", "PodInitializing"}
  }

  ghost function ReadyOnes(statuses: seq<ContainerStatus>): set<nat> {
    set i: nat | i < |statuses| && statuses[i].ready
  }

  lemma {:induction false} ReadyCountMeaning(statuses: seq<ContainerStatus>)
    ensures ReadyCount(statuses) == |ReadyOnes(statuses)|
  {
    if statuses != [] {
      var init := statuses[..|statuses| - 1];
      ReadyCountMeaning(init);
      if statuses[|statuses| - 1].ready {
        assert ReadyOnes(statuses) == ReadyOnes(init) + {|statuses| - 1};
      } else {
        assert ReadyOnes(statuses) == ReadyOnes(init);
      }
    }
  }

  /** The four statuses a pod can have, each by its own condition. */
  lemma PodStatusMeaning(pod: Pod)
    ensures PodStatus(pod) == Error <==> !pod.deleting && (AnyStuck(pod) || pod.phase == "Failed")
    ensures PodStatus(pod) == Healthy <==>
              && !pod.deleting && !AnyStuck(pod) && pod.phase == "Running"
              && |ReadyOnes(pod.containerStatuses)| == |pod.spec.containers|
    ensures PodStatus(pod) == Idle <==> !pod.deleting && !AnyStuck(pod) && pod.phase == "Succeeded"
    ensures PodStatus(pod) in {Error, Healthy, Idle, Warning}
  {
    ReadyCountMeaning(pod.containerStatuses);
  }

  /** The worse of two statuses: an error outranks a warning, which outranks health; anything else outranks
      nothing, and the first of two such statuses stays. */
  lemma WorstStatusMeaning(a: Status, b: Status)
    ensures WorstStatus(a, b) == Error <==> a == Error || b == Error
    ensures WorstStatus(a, b) == Warning <==> a != Error && b != Error && (a == Warning || b == Warning)
    ensures WorstStatus(a, b) == Healthy <==> {a, b} !! {Error, Warning} && (a == Healthy || b == Healthy)
    ensures {a, b} !! {Error, Warning, Healthy} ==> WorstStatus(a, b) == a
  {
  }

  method ComputePodStatus(pod: Pod) returns (status: Status)
    ensures status == PodStatus(pod)
  {
    var ready := 0;
    status := Warning;
    for i := 0 to |pod.containerStatuses|
      invariant ready == ReadyCount(pod.containerStatuses[..i])
      invariant status == if exists k :: 0 <= k < i && Stuck(pod.containerStatuses[k]) then Error else Warning
    {
      var cs := pod.containerStatuses[i];
      assert pod.containerStatuses[..i + 1][..i] == pod.containerStatuses[..i];
      if cs.ready {
        ready := ready + 1;
      }
      if Stuck(cs) {
        status := Error;
      }
    }
    assert pod.containerStatuses[..|pod.containerStatuses|] == pod.containerStatuses;
    if status != Error {
      if pod.phase == "Running" {
        if ready == |pod.spec.containers| {
          status := Healthy;
        }
      } else if pod.phase == "Succeeded" {
        status := Idle;
      } else if pod.phase == "Failed" {
        status := Error;
      }
    }
    if pod.deleting {
      status := Warning;
    }
  }
}
