/** topOwner and controllerRef of kube_pod_owners.go: the bounded walk along controller references. */
module TopOwner {
  import opened KubeObjects
  import opened Wrappers

  const MAX_OWNER_DEPTH := 5

  type Shown = map<string, string>
  type Intermediate = map<string, seq<OwnerRef>>

  /** The controlling reference, or the first when none is marked. */
  function ControllerRef(refs: seq<OwnerRef>): (ref: OwnerRef)
    requires refs != []
    ensures ref in refs
    ensures ref == refs[0] || ref.controller
  {
    if exists i :: 0 <= i < |refs| && refs[i].controller then FirstController(refs) else refs[0]
  }

  function FirstController(refs: seq<OwnerRef>): (ref: OwnerRef)
    requires exists i :: 0 <= i < |refs| && refs[i].controller
    ensures ref in refs && ref.controller
  {
    if refs[0].controller then refs[0] else FirstController(refs[1..])
  }

  lemma {:induction false} FirstControllerIs(refs: seq<OwnerRef>, i: nat)
    requires i < |refs| && refs[i].controller && forall k :: 0 <= k < i ==> !refs[k].controller
    ensures FirstController(refs) == refs[i]
  {
    if i > 0 {
      FirstControllerIs(refs[1..], i - 1);
    }
  }

  /** The i-th reference is the first one marked as controller. */
  ghost predicate FirstMarked(refs: seq<OwnerRef>, i: nat) {
    i < |refs| && refs[i].controller && forall k :: 0 <= k < i ==> !refs[k].controller
  }

  /** Which reference is chosen: the first one marked, whatever precedes it, or the first of all. */
  lemma ControllerRefMeaning(refs: seq<OwnerRef>)
    requires refs != []
    ensures forall i: nat :: FirstMarked(refs, i) ==> ControllerRef(refs) == refs[i]
    ensures (forall i :: 0 <= i < |refs| ==> !refs[i].controller) ==> ControllerRef(refs) == refs[0]
  {
    forall i: nat | FirstMarked(refs, i) ensures ControllerRef(refs) == refs[i] {
      FirstControllerIs(refs, i);
    }
  }

  method FindControllerRef(refs: seq<OwnerRef>) returns (ref: OwnerRef)
    requires refs != []
    ensures ref == ControllerRef(refs)
    ensures forall i: nat :: FirstMarked(refs, i) ==> ref == refs[i]
    ensures (forall i :: 0 <= i < |refs| ==> !refs[i].controller) ==> ref == refs[0]
  {
    ControllerRefMeaning(refs);
    for i := 0 to |refs|
      invariant forall k :: 0 <= k < i ==> !refs[k].controller
    {
      if refs[i].controller {
        FirstControllerIs(refs, i);
        return refs[i];
      }
    }
    return refs[0];
  }

  /** The n-th reference on the controller chain that starts at `refs`, if the chain is that long. */
  ghost function Chain(refs: seq<OwnerRef>, intermediate: Intermediate, n: nat): Option<OwnerRef>
    requires refs != []
  {
    if n == 0 then Some(ControllerRef(refs))
    else
      var before := Chain(refs, intermediate, n - 1);
      if before.Some? && before.value.uid in intermediate && intermediate[before.value.uid] != []
      then Some(ControllerRef(intermediate[before.value.uid]))
      else None
  }

  /** The walk from `ref` with `depth` references left to look at. */
  function WalkUp(ref: OwnerRef, shown: Shown, intermediate: Intermediate, depth: nat): (OwnerRef, string)
    decreases depth
  {
    if depth == 0 then (ref, "")
    else if ref.uid in shown then (ref, shown[ref.uid])
    else if ref.uid !in intermediate || intermediate[ref.uid] == [] then (ref, "")
    else WalkUp(ControllerRef(intermediate[ref.uid]), shown, intermediate, depth - 1)
  }

  function Top(refs: seq<OwnerRef>, shown: Shown, intermediate: Intermediate): (OwnerRef, string)
    requires refs != []
  {
    WalkUp(ControllerRef(refs), shown, intermediate, MAX_OWNER_DEPTH)
  }

  method FindTopOwner(refs: seq<OwnerRef>, shown: Shown, intermediate: Intermediate) returns (ref: OwnerRef, id: string)
    requires refs != []
    ensures (ref, id) == Top(refs, shown, intermediate)
  {
    ref := FindControllerRef(refs);
    for depth := 0 to MAX_OWNER_DEPTH
      invariant Top(refs, shown, intermediate) == WalkUp(ref, shown, intermediate, MAX_OWNER_DEPTH - depth)
    {
      if ref.uid in shown {
        return ref, shown[ref.uid];
      }
      if ref.uid !in intermediate || |intermediate[ref.uid]| == 0 {
        return ref, "";
      }
      ref := FindControllerRef(intermediate[ref.uid]);
    }
    return ref, "";
  }

  // The unbounded walk

  /** Without a depth bound the walk would end at the k-th reference: it is the first one drawn, or
      the last one visible with none drawn before. */
  ghost predicate EndsAt(refs: seq<OwnerRef>, shown: Shown, intermediate: Intermediate, k: nat)
    requires refs != []
  {
    && Chain(refs, intermediate, k).Some?
    && (forall j :: 0 <= j < k && Chain(refs, intermediate, j).Some? ==>
        Chain(refs, intermediate, j).value.uid !in shown)
    && (Chain(refs, intermediate, k).value.uid in shown || Chain(refs, intermediate, k + 1).None?)
  }

  /** The answer of the unbounded walk when it ends at k. */
  ghost function Answer(refs: seq<OwnerRef>, shown: Shown, intermediate: Intermediate, k: nat): (OwnerRef, string)
    requires refs != [] && Chain(refs, intermediate, k).Some?
  {
    var ref := Chain(refs, intermediate, k).value;
    (ref, if ref.uid in shown then shown[ref.uid] else "")
  }

  lemma {:induction false} ChainIsPrefixClosed(refs: seq<OwnerRef>, intermediate: Intermediate, j: nat, k: nat)
    requires refs != [] && j <= k && Chain(refs, intermediate, k).Some?
    ensures Chain(refs, intermediate, j).Some?
  {
    if j < k {
      ChainIsPrefixClosed(refs, intermediate, j, k - 1);
    }
  }

  /** Where the bounded walk stops: at the end of the unbounded one if that lies among the first five
      references, and otherwise empty-handed at the sixth.  Cyclic references are covered. */
  lemma TopMeaning(refs: seq<OwnerRef>, shown: Shown, intermediate: Intermediate) returns (k: nat)
    requires refs != []
    ensures k <= MAX_OWNER_DEPTH && Chain(refs, intermediate, k).Some?
    ensures forall j :: 0 <= j < k && Chain(refs, intermediate, j).Some? ==>
              Chain(refs, intermediate, j).value.uid !in shown
    ensures k < MAX_OWNER_DEPTH ==> EndsAt(refs, shown, intermediate, k)
    ensures k < MAX_OWNER_DEPTH ==> Top(refs, shown, intermediate) == Answer(refs, shown, intermediate, k)
    ensures k == MAX_OWNER_DEPTH ==> Top(refs, shown, intermediate) == (Chain(refs, intermediate, k).value, "")
  {
    k := WalkMeaning(refs, shown, intermediate, 0);
  }

  lemma {:induction false} WalkMeaning(
    refs: seq<OwnerRef>, shown: Shown, intermediate: Intermediate, from: nat) returns (k: nat)
    requires refs != [] && from <= MAX_OWNER_DEPTH && Chain(refs, intermediate, from).Some?
    requires forall j :: 0 <= j < from && Chain(refs, intermediate, j).Some? ==>
              Chain(refs, intermediate, j).value.uid !in shown
    ensures from <= k <= MAX_OWNER_DEPTH && Chain(refs, intermediate, k).Some?
    ensures forall j :: 0 <= j < k && Chain(refs, intermediate, j).Some? ==>
              Chain(refs, intermediate, j).value.uid !in shown
    ensures var walk := WalkUp(Chain(refs, intermediate, from).value, shown, intermediate, MAX_OWNER_DEPTH - from);
            if k < MAX_OWNER_DEPTH then EndsAt(refs, shown, intermediate, k)
                && walk == Answer(refs, shown, intermediate, k)
            else walk == (Chain(refs, intermediate, k).value, "")
    decreases MAX_OWNER_DEPTH - from
  {
    var ref := Chain(refs, intermediate, from).value;
    k := from;
    if from < MAX_OWNER_DEPTH && ref.uid !in shown && ref.uid in intermediate && intermediate[ref.uid] != [] {
      assert Chain(refs, intermediate, from + 1) == Some(ControllerRef(intermediate[ref.uid]));
      k := WalkMeaning(refs, shown, intermediate, from + 1);
    }
  }

  lemma EndIsUnique(refs: seq<OwnerRef>, shown: Shown, intermediate: Intermediate, j: nat, k: nat)
    requires refs != [] && EndsAt(refs, shown, intermediate, j) && EndsAt(refs, shown, intermediate, k)
    ensures j == k
  {
    if j < k {
      ChainIsPrefixClosed(refs, intermediate, j + 1, k);
    } else if k < j {
      ChainIsPrefixClosed(refs, intermediate, k + 1, j);
    }
  }

  /** A drawn workload is found exactly if it is among the first five references of the chain. */
  lemma FoundIffDrawnWithinBound(refs: seq<OwnerRef>, shown: Shown, intermediate: Intermediate)
    requires refs != [] && forall uid :: uid in shown ==> shown[uid] != ""
    ensures Top(refs, shown, intermediate).1 != "" <==>
            exists k :: 0 <= k < MAX_OWNER_DEPTH && Chain(refs, intermediate, k).Some?
                && Chain(refs, intermediate, k).value.uid in shown
  {
    var k := TopMeaning(refs, shown, intermediate);
    forall j | 0 <= j < MAX_OWNER_DEPTH && Chain(refs, intermediate, j).Some?
        && Chain(refs, intermediate, j).value.uid in shown
      ensures k < MAX_OWNER_DEPTH && Chain(refs, intermediate, k).value.uid in shown
    {
      if k < j {
        ChainIsPrefixClosed(refs, intermediate, k + 1, j);
      }
    }
  }

  /** The bound makes no difference exactly if the unbounded walk ends among the first five references,
      or at the sixth without having found a drawn workload. */
  lemma BoundMakesNoDifference(refs: seq<OwnerRef>, shown: Shown, intermediate: Intermediate, k: nat)
    requires refs != [] && EndsAt(refs, shown, intermediate, k)
    requires forall uid :: uid in shown ==> shown[uid] != ""
    ensures Top(refs, shown, intermediate) == Answer(refs, shown, intermediate, k)
            <==> k < MAX_OWNER_DEPTH || (k == MAX_OWNER_DEPTH && Chain(refs, intermediate, k).value.uid !in shown)
  {
    var m := TopMeaning(refs, shown, intermediate);
    if m < MAX_OWNER_DEPTH {
      EndIsUnique(refs, shown, intermediate, m, k);
    } else if k < m {
      ChainIsPrefixClosed(refs, intermediate, k + 1, m);
    } else if m < k {
      ChainIsPrefixClosed(refs, intermediate, m + 1, k);
    }
  }

  // The walk, told without the functions that compute it

  ghost predicate Chosen(refs: seq<OwnerRef>, ref: OwnerRef) {
    exists i: nat :: i < |refs| && ref == refs[i]
                     && (FirstMarked(refs, i) || (i == 0 && forall k :: 0 <= k < |refs| ==> !refs[k].controller))
  }

  lemma ChosenIsControllerRef(refs: seq<OwnerRef>, ref: OwnerRef)
    requires refs != [] && Chosen(refs, ref)
    ensures ref == ControllerRef(refs)
  {
    ControllerRefMeaning(refs);
  }

  /** A way up: the first reference is chosen from those of the pod, every other one from those of what the
      one before it names. */
  ghost predicate Climbs(refs: seq<OwnerRef>, intermediate: Intermediate, path: seq<OwnerRef>) {
    && path != [] && Chosen(refs, path[0])
    && forall k :: 0 <= k < |path| - 1 ==>
        path[k].uid in intermediate && Chosen(intermediate[path[k].uid], path[k + 1])
  }

  /** Nothing on the way but possibly its end is drawn. */
  ghost predicate Undrawn(path: seq<OwnerRef>, shown: Shown) {
    forall k :: 0 <= k < |path| - 1 ==> path[k].uid !in shown
  }

  lemma {:induction false} WalkAlong(
    refs: seq<OwnerRef>, shown: Shown, intermediate: Intermediate, path: seq<OwnerRef>, k: nat, depth: nat)
    requires Climbs(refs, intermediate, path) && Undrawn(path, shown) && k < |path| && k <= depth
    ensures WalkUp(path[0], shown, intermediate, depth) == WalkUp(path[k], shown, intermediate, depth - k)
  {
    if k > 0 {
      WalkAlong(refs, shown, intermediate, path, k - 1, depth);
      ChosenIsControllerRef(intermediate[path[k - 1].uid], path[k]);
    }
  }

  /** Five references are looked at.  A way up whose end is the first thing drawn on it finds that, unless
      it is longer; one that ends undrawn finds nothing; and so does a longer one, at its sixth reference. */
  lemma ClimbMeaning(refs: seq<OwnerRef>, shown: Shown, intermediate: Intermediate, path: seq<OwnerRef>)
    requires refs != [] && Climbs(refs, intermediate, path) && Undrawn(path, shown) && |path| <= 6
    ensures var last := path[|path| - 1];
            && (|path| <= 5 && last.uid in shown ==> Top(refs, shown, intermediate) == (last, shown[last.uid]))
            && (|path| <= 5 && last.uid !in shown && (last.uid in intermediate ==> intermediate[last.uid] == []) ==>
                  Top(refs, shown, intermediate) == (last, ""))
            && (|path| == 6 ==> Top(refs, shown, intermediate) == (last, ""))
  {
    ChosenIsControllerRef(refs, path[0]);
    WalkAlong(refs, shown, intermediate, path, |path| - 1, MAX_OWNER_DEPTH);
  }
}
