/** useKubeNavigation.ts: the URL hash is the only lasting state.  Every action writes a hash; the
    hashchange event then reads the route back from it. */
module Navigation {
  import opened KubeRoute
  import opened Seqs
  import opened Text
  import opened Wrappers

  /** The node fields navigation looks at; a cluster-scoped object has no namespace. */
  datatype GraphNode = GraphNode(
    kind: string, group: string, name: string, namespace: Option<string>, drillable: bool)

  datatype Action =
    | Drill(node: GraphNode)
    | Back
    | GoTo(index: nat)
    | SetNamespace(namespace: string)
    | SetRoot(root: KubeRoot, nextNamespace: Option<string>)

  /** The route a hash stands for inside a cluster; None when reading the hash throws. */
  function RouteFromHash(cluster: string, hash: string): Option<KubeRoute> {
    match ParseHash(hash)
    case UriError => None
    case NoRoute => Some(DefaultRoute(cluster))
    case Found(route) => Some(if route.cluster == cluster then route else DefaultRoute(cluster))
  }

  function Opened(node: GraphNode): KubeView {
    if node.kind == "Node" then NodeView(node.name)
    else ObjectView(node.namespace, node.kind, node.group, node.name)
  }

  /** drills.slice(0, n). */
  function Outermost(drills: seq<KubeView>, n: int): seq<KubeView>
    requires n >= 0
  {
    if n < |drills| then drills[..n] else drills
  }

  /** drills.slice(0, -1). */
  function AllButLast(drills: seq<KubeView>): seq<KubeView> {
    if drills == [] then [] else drills[..|drills| - 1]
  }

  /** The route an action asks for; None when it does not navigate. */
  function Asked(route: KubeRoute, action: Action): Option<KubeRoute> {
    match action
    case Drill(node) =>
      if !node.drillable then None
      else if node.kind == "Namespace" then Some(KubeRoute(route.cluster, node.name, Overview, []))
      else Some(route.(drills := route.drills + [Opened(node)]))
    case Back => Some(route.(drills := AllButLast(route.drills)))
    case GoTo(index) => Some(route.(drills := Outermost(route.drills, index)))
    case SetNamespace(next) => Some(route.(namespace := next, drills := []))
    case SetRoot(next, nextNamespace) =>
      Some(KubeRoute(route.cluster, if nextNamespace.None? then route.namespace else nextNamespace.value, next, []))
  }

  class KubeNavigation {
    const cluster: string
    var hash: string
    var route: KubeRoute

    /** The state follows the hash: true whenever no hashchange event is outstanding. */
    ghost predicate Settled()
      reads this
    {
      RouteFromHash(cluster, hash) == Some(route)
    }

    /** The effect run on mount; a hash of another cluster is replaced. */
    constructor (cluster: string, hash: string)
      requires cluster != "" && !ParseHash(hash).UriError?
      ensures this.cluster == cluster && Settled()
      ensures ParseHash(this.hash).Found? && ParseHash(this.hash).route == route
      ensures Some(route) == RouteFromHash(cluster, hash)
      ensures ParseHash(hash).Found? && ParseHash(hash).route.cluster == cluster ==> this.hash == hash
    {
      this.cluster := cluster;
      var parsed := ParseHash(hash);
      if parsed.Found? && parsed.route.cluster == cluster {
        this.hash := hash;
        this.route := parsed.route;
      } else {
        this.hash := HashOf(DefaultRoute(cluster));
        this.route := DefaultRoute(cluster);
      }
      new;
      RoundTrip(DefaultRoute(cluster));
    }

    method Navigate(namespace: string, root: KubeRoot, drills: seq<KubeView>)
      modifies this`hash
      ensures hash == HashOf(KubeRoute(cluster, namespace, root, drills))
    {
      hash := ToKubeHash(KubeRoute(cluster, namespace, root, drills));
    }

    /** The hashchange listener; reading an undecodable hash throws and leaves the route. */
    method Sync()
      modifies this`route
      ensures RouteFromHash(cluster, hash).None? ==> route == old(route)
      ensures RouteFromHash(cluster, hash).Some? ==> Settled()
      ensures old(route.cluster) == cluster ==> route.cluster == cluster
    {
      var parsed := ParseKubeHash(hash);
      match parsed {
        case UriError =>
        case NoRoute => route := DefaultRoute(cluster);
        case Found(found) => route := if found.cluster == cluster then found else DefaultRoute(cluster);
      }
    }

    method Perform(action: Action)
      requires route.cluster == cluster
      modifies this`hash
      ensures hash == if Asked(route, action).None? then old(hash) else HashOf(Asked(route, action).value)
    {
      match action {
        case Drill(node) =>
          if !node.drillable {
            return;
          }
          if node.kind == "Namespace" {
            Navigate(node.name, Overview, []);
          } else if node.kind == "Node" {
            Navigate(route.namespace, route.root, route.drills + [NodeView(node.name)]);
          } else {
            Navigate(route.namespace, route.root,
                     route.drills + [ObjectView(node.namespace, node.kind, node.group, node.name)]);
          }
        case Back => Navigate(route.namespace, route.root, AllButLast(route.drills));
        case GoTo(index) => Navigate(route.namespace, route.root, Outermost(route.drills, index));
        case SetNamespace(next) => Navigate(next, route.root, []);
        case SetRoot(next, nextNamespace) =>
          Navigate(if nextNamespace.None? then route.namespace else nextNamespace.value, next, []);
      }
    }

    /** An action followed by its hashchange event takes the state where After says. */
    method Act(action: Action)
      requires Settled() && WellFormed(route) && route.cluster == cluster && Sensible(action)
      modifies this
      ensures Settled() && WellFormed(route) && route.cluster == cluster
      ensures route == After(old(route), [action])
    {
      ActionSettles(route, action);
      AfterOne(route, action);
      Perform(action);
      Sync();
    }
  }

  // Runs

  /** What the cluster and the sidebar guarantee: kinds without dots, no namespace called "*" or "-",
      and roots that are not written like a reserved word. */
  ghost predicate Sensible(action: Action) {
    match action
    case Drill(node) =>
      && Free('.', node.kind)
      && (node.kind == "Namespace" ==> node.name != ALL_NAMESPACES)
      && (node.namespace.Some? ==> node.namespace.value != NO_NAMESPACE)
    case SetNamespace(next) => next != ALL_NAMESPACES
    case SetRoot(next, nextNamespace) => WellFormedRoot(next)
        && (nextNamespace.Some? ==> nextNamespace.value != ALL_NAMESPACES)
    case _ => true
  }

  /** Reading a route back gives an object without a namespace the empty one. */
  ghost function NormalView(view: KubeView): KubeView {
    if view.ObjectView? && view.namespace.None? then view.(namespace := Some("")) else view
  }

  ghost function NormalViews(views: seq<KubeView>): seq<KubeView> {
    if views == [] then [] else NormalViews(views[..|views| - 1]) + [NormalView(views[|views| - 1])]
  }

  /** The route after a series of actions, each followed by its hashchange event. */
  ghost function After(route: KubeRoute, actions: seq<Action>): KubeRoute {
    if actions == [] then route
    else
      var before := After(route, actions[..|actions| - 1]);
      var asked := Asked(before, actions[|actions| - 1]);
      if asked.None? then before else asked.value.(drills := NormalViews(asked.value.drills))
  }

  lemma AfterOne(route: KubeRoute, action: Action)
    ensures var asked := Asked(route, action);
            After(route, [action])
            == if asked.None? then route else asked.value.(drills := NormalViews(asked.value.drills))
  {
    assert [action][..0] == [];
    assert After(route, []) == route;
  }

  lemma AfterMore(route: KubeRoute, actions: seq<Action>, action: Action)
    ensures After(route, actions + [action]) == After(After(route, actions), [action])
  {
    AfterOne(After(route, actions), action);
    TakeDrop(actions, [action]);
  }

  lemma WellFormedViewIsNormal(view: KubeView)
    requires WellFormedView(view)
    ensures NormalView(view) == view
  {
  }

  lemma {:induction false} WellFormedViewsAreNormal(views: seq<KubeView>)
    requires forall i :: 0 <= i < |views| ==> WellFormedView(views[i])
    ensures NormalViews(views) == views
  {
    hide WellFormedView, NormalView;
    if views != [] {
      WellFormedViewIsNormal(views[|views| - 1]);
      WellFormedViewsAreNormal(views[..|views| - 1]);
    }
  }

  lemma NormalViewsOfMore(views: seq<KubeView>, view: KubeView)
    requires forall i :: 0 <= i < |views| ==> WellFormedView(views[i])
    ensures NormalViews(views + [view]) == views + [NormalView(view)]
  {
    WellFormedViewsAreNormal(views);
    TakeDrop(views, [view]);
  }

  lemma {:induction false} SegmentsOfNormal(drills: seq<KubeView>, view: KubeView)
    ensures DrillSegments(drills + [view]) == DrillSegments(drills + [NormalView(view)])
  {
    if drills == [] {
      assert [view][1..] == [] == [NormalView(view)][1..];
      assert [] + [view] == [view] && [] + [NormalView(view)] == [NormalView(view)];
    } else {
      SegmentsOfNormal(drills[1..], view);
      assert (drills + [view])[1..] == drills[1..] + [view];
      assert (drills + [NormalView(view)])[1..] == drills[1..] + [NormalView(view)];
    }
  }

  lemma HashOfNormal(route: KubeRoute, view: KubeView)
    ensures HashOf(route.(drills := route.drills + [view]))
            == HashOf(route.(drills := route.drills + [NormalView(view)]))
  {
    hide NormalView, DrillSegments, EncodeAll, Join;
    SegmentsOfNormal(route.drills, view);
  }

  /** One action on a well-formed route: the hash it writes is read back as After says, and the
      result is well-formed again. */
  lemma ActionSettles(route: KubeRoute, action: Action)
    requires WellFormed(route) && Sensible(action)
    ensures var next := After(route, [action]);
            && WellFormed(next) && next.cluster == route.cluster
            && (Asked(route, action).Some? ==> ParseHash(HashOf(Asked(route, action).value)) == Found(next))
  {
    hide HashOf, ParseHash, After, NormalViews;
    AfterOne(route, action);
    var asked := Asked(route, action);
    if asked.Some? {
      var drills := asked.value.drills;
      match action {
        case Drill(node) =>
          if node.kind != "Namespace" {
            var view := Opened(node);
            NormalViewsOfMore(route.drills, view);
            HashOfNormal(route, view);
          } else {
            WellFormedViewsAreNormal(drills);
          }
        case _ => WellFormedViewsAreNormal(drills);
      }
      var next := asked.value.(drills := NormalViews(drills));
      RoundTrip(next);
    }
  }

  /** Every route reached by any series of actions is well-formed, so its hash always reads back as
      that same route: reloading or sharing the URL shows the same view. */
  lemma {:induction false} EveryRouteReadsBack(route: KubeRoute, actions: seq<Action>)
    requires WellFormed(route) && forall action :: action in actions ==> Sensible(action)
    ensures WellFormed(After(route, actions)) && After(route, actions).cluster == route.cluster
    ensures ParseHash(HashOf(After(route, actions))) == Found(After(route, actions))
  {
    if actions != [] {
      var init, last := actions[..|actions| - 1], actions[|actions| - 1];
      assert actions == init + [last];
      EveryRouteReadsBack(route, init);
      AfterMore(route, init, last);
      ActionSettles(After(route, init), last);
    }
    RoundTrip(After(route, actions));
  }

  /** Going back after opening an object or node restores the route. */
  lemma BackUndoesDrill(route: KubeRoute, node: GraphNode)
    requires WellFormed(route) && Sensible(Drill(node))
    requires node.drillable && node.kind != "Namespace"
    ensures After(route, [Drill(node), Back]) == route
  {
    var inside := After(route, [Drill(node)]);
    AfterMore(route, [Drill(node)], Back);
    assert [Drill(node)] + [Back] == [Drill(node), Back];
    AfterOne(route, Drill(node));
    NormalViewsOfMore(route.drills, Opened(node));
    TakeDrop(route.drills, [NormalView(Opened(node))]);
    AfterOne(inside, Back);
    WellFormedViewsAreNormal(route.drills);
  }

  // Breadcrumbs

  function RootLabel(plural: string -> string, route: KubeRoute): string {
    match route.root
    case Overview => OrElse(route.namespace, "Cluster")
    case LensRoot(lens) => (match lens case Nodes => "Nodes" case Storage => "Storage" case Access => "Access")
    case KindRoot(_, kind) => plural(kind)
  }

  function DrillLabel(view: KubeView): string {
    match view
    case NodeView(name) => "Node " + name
    case ObjectView(_, kind, _, name) => kind + " " + name
  }

  function DrillLabels(drills: seq<KubeView>): (labels: seq<string>)
    ensures |labels| == |drills|
    ensures forall i :: 0 <= i < |drills| ==> labels[i] == DrillLabel(drills[i])
  {
    if drills == [] then [] else [DrillLabel(drills[0])] + DrillLabels(drills[1..])
  }

  function Crumbs(plural: string -> string, route: KubeRoute): seq<string> {
    [RootLabel(plural, route)] + DrillLabels(route.drills)
  }

  lemma LabelsOfTake(drills: seq<KubeView>, n: nat)
    requires n <= |drills|
    ensures DrillLabels(drills[..n]) == DrillLabels(drills)[..n]
  {
  }

  lemma GoToKeepsDrills(route: KubeRoute, index: nat)
    requires WellFormed(route)
    ensures index <= |route.drills| ==> After(route, [GoTo(index)]) == route.(drills := route.drills[..index])
    ensures index >= |route.drills| ==> After(route, [GoTo(index)]) == route
  {
    hide WellFormedView, WellFormedRoot, NormalViews, After, HashOf;
    AfterOne(route, GoTo(index));
    var kept := Outermost(route.drills, index);
    WellFormedViewsAreNormal(kept);
    assert route.drills[..|route.drills|] == route.drills;
  }

  /** Clicking a breadcrumb keeps exactly the crumbs up to it, and there are no others to click. */
  lemma GoToKeepsCrumbs(plural: string -> string, route: KubeRoute, index: nat)
    requires WellFormed(route)
    ensures index <= |route.drills| ==> After(route, [GoTo(index)]) == route.(drills := route.drills[..index])
    ensures index <= |route.drills| ==>
              Crumbs(plural, After(route, [GoTo(index)])) == Crumbs(plural, route)[..index + 1]
    ensures index >= |route.drills| ==> After(route, [GoTo(index)]) == route
  {
    hide WellFormed, After, RootLabel, DrillLabels;
    GoToKeepsDrills(route, index);
    if index <= |route.drills| {
      LabelsOfTake(route.drills, index);
      TakePast([RootLabel(plural, route)], DrillLabels(route.drills), index + 1);
      RootLabelIgnoresDrills(plural, route, route.drills[..index]);
    }
  }

  /** Going back drops the last crumb, and does nothing where there is only one. */
  lemma BackDropsLastCrumb(plural: string -> string, route: KubeRoute)
    requires WellFormed(route)
    ensures var crumbs, next := Crumbs(plural, route), After(route, [Back]);
            if |crumbs| == 1 then next == route else Crumbs(plural, next) == crumbs[..|crumbs| - 1]
  {
    hide WellFormedView, WellFormedRoot, NormalViews, After, RootLabel, DrillLabels;
    AfterOne(route, Back);
    WellFormedViewsAreNormal(AllButLast(route.drills));
    if route.drills != [] {
      var n := |route.drills| - 1;
      LabelsOfTake(route.drills, n);
      TakePast([RootLabel(plural, route)], DrillLabels(route.drills), n + 1);
      RootLabelIgnoresDrills(plural, route, route.drills[..n]);
    }
  }

  /** The only crumb of a route nothing was opened from: where it starts. */
  ghost predicate StartsAt(plural: string -> string, route: KubeRoute, crumb: string) {
    match route.root
    case Overview => crumb == (if route.namespace == "" then "Cluster" else route.namespace)
    case LensRoot(Nodes) => crumb == "Nodes"
    case LensRoot(Storage) => crumb == "Storage"
    case LensRoot(Access) => crumb == "Access"
    case KindRoot(_, kind) => crumb == plural(kind)
  }

  /** Changing the namespace or the root, or opening a namespace, starts over: one crumb is left. */
  lemma StartingOverClearsDrills(plural: string -> string, route: KubeRoute, action: Action)
    requires action.SetNamespace? || action.SetRoot? || (action.Drill? && action.node.kind == "Namespace")
    requires action.Drill? ==> action.node.drillable
    ensures var next := After(route, [action]);
            && next.drills == [] && next.cluster == route.cluster
            && |Crumbs(plural, next)| == 1 && StartsAt(plural, next, Crumbs(plural, next)[0])
            && (action.SetNamespace? ==> next.namespace == action.namespace && next.root == route.root)
            && (action.SetRoot? ==> next.root == action.root)
            && (action.SetRoot? && action.nextNamespace.None? ==> next.namespace == route.namespace)
            && (action.SetRoot? && action.nextNamespace.Some? ==> next.namespace == action.nextNamespace.value)
            && (action.Drill? ==> next.namespace == action.node.name && next.root == Overview)
  {
    AfterOne(route, action);
  }

  /** Opening anything else goes one level deeper, to that node, and moves nowhere else. */
  lemma DrillAddsOneView(route: KubeRoute, node: GraphNode)
    requires WellFormed(route) && node.drillable && node.kind != "Namespace"
    ensures var home := if node.namespace.None? then "" else node.namespace.value;
            var view := if node.kind == "Node" then NodeView(node.name)
                        else ObjectView(Some(home), node.kind, node.group, node.name);
            After(route, [Drill(node)]) == route.(drills := route.drills + [view])
  {
    hide WellFormedView, WellFormedRoot, After, NormalViews;
    AfterOne(route, Drill(node));
    NormalViewsOfMore(route.drills, Opened(node));
  }

  lemma LabelsOfMore(drills: seq<KubeView>, view: KubeView)
    ensures DrillLabels(drills + [view]) == DrillLabels(drills) + [DrillLabel(view)]
  {
  }

  lemma LabelOfNode(node: GraphNode, view: KubeView)
    requires if node.kind == "Node" then view == NodeView(node.name)
             else view.ObjectView? && view.kind == node.kind && view.name == node.name
    ensures DrillLabel(view) == node.kind + " " + node.name
  {
    if node.kind == "Node" {
      assert "Node" + " " == "Node ";
    }
  }

  /** ... which adds one crumb. */
  lemma DrillAddsOneCrumb(plural: string -> string, route: KubeRoute, node: GraphNode)
    requires WellFormed(route) && node.drillable && node.kind != "Namespace"
    ensures Crumbs(plural, After(route, [Drill(node)])) == Crumbs(plural, route) + [node.kind + " " + node.name]
  {
    DrillAddsOneView(route, node);
    hide WellFormed, After, RootLabel, DrillLabels, DrillLabel;
    var next := After(route, [Drill(node)]);
    var view := next.drills[|route.drills|];
    assert next.drills == route.drills + [view];
    LabelOfNode(node, view);
    LabelsOfMore(route.drills, view);
    RootLabelIgnoresDrills(plural, route, next.drills);
    Assoc([RootLabel(plural, route)], DrillLabels(route.drills), [DrillLabel(view)]);
  }

  /** A node that cannot be opened changes nothing. */
  lemma UndrillableIsIgnored(route: KubeRoute, node: GraphNode)
    requires !node.drillable
    ensures After(route, [Drill(node)]) == route
  {
    AfterOne(route, Drill(node));
  }

  /** The hash of a well-formed route is followed inside its own cluster; inside another one, and where
      there is no route to read, everything starts at the overview. */
  lemma HashesOfOtherClusters(cluster: string, route: KubeRoute, hash: string)
    requires WellFormed(route)
    ensures RouteFromHash(cluster, HashOf(route))
            == Some(if route.cluster == cluster then route else KubeRoute(cluster, "", Overview, []))
    ensures ParseHash(hash) == NoRoute ==> RouteFromHash(cluster, hash) == Some(KubeRoute(cluster, "", Overview, []))
    ensures RouteFromHash(cluster, hash).Some? ==> RouteFromHash(cluster, hash).value.cluster == cluster
  {
    hide HashOf, ParseHash, WellFormed;
    RoundTrip(route);
  }

  lemma RootLabelIgnoresDrills(plural: string -> string, route: KubeRoute, drills: seq<KubeView>)
    ensures RootLabel(plural, route.(drills := drills)) == RootLabel(plural, route)
  {
  }
}
