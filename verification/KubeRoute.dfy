/** Routes as the fragment of an address: a fixed prefix, then the cluster, the namespace and the root,
    then three segments for each object opened from there.  Which routes survive being written and read
    back is the question this module answers. */
module KubeRoute {
  import opened PercentEncoding
  import opened Seqs
  import opened Text
  import opened Wrappers

  const PREFIX := "#/k8s/"
  const ALL_NAMESPACES := "*"
  const NO_NAMESPACE := "-"

  datatype Lens = Nodes | Storage | Access

  datatype KubeRoot =
    | Overview
    | LensRoot(lens: Lens)
    | KindRoot(group: string, kind: string)

  /** A level opened from the root.  The namespace of an object may be undefined. */
  datatype KubeView =
    | NodeView(name: string)
    | ObjectView(namespace: Option<string>, kind: string, group: string, name: string)

  /** An empty namespace stands for all namespaces. */
  datatype KubeRoute = KubeRoute(cluster: string, namespace: string, root: KubeRoot, drills: seq<KubeView>)

  function DefaultRoute(cluster: string): KubeRoute {
    KubeRoute(cluster, "", Overview, [])
  }

  // Kinds

  function KindSegment(kind: string, group: string): string {
    if group == "" then kind else kind + "." + group
  }

  /** The kind and the group of a segment. */
  function SplitKind(segment: string): (string, string) {
    var pieces := Split(segment, '.');
    (pieces[0], Join(pieces[1..], '.'))
  }

  lemma SplitKindOfSegment(kind: string, group: string)
    requires Free('.', kind)
    ensures SplitKind(KindSegment(kind, group)) == (kind, group)
  {
    if group == "" {
      SplitWhole(kind, '.');
    } else {
      SplitAtFirst(kind, group, '.');
      TakeDrop([kind], Split(group, '.'));
      JoinInvertsSplit(group, '.');
    }
  }

  /** The kind never contains a dot, and the two parts spell the segment again, except that a
      trailing dot after the kind is lost. */
  lemma SplitKindMeaning(segment: string)
    ensures var (kind, group) := SplitKind(segment);
            && Free('.', kind)
            && (segment == KindSegment(kind, group) || (group == "" && segment == kind + "."))
  {
    JoinInvertsSplit(segment, '.');
    var pieces := Split(segment, '.');
    assert pieces[0] in pieces;
  }

  // Segments

  function LensSegment(lens: Lens): string {
    match lens
    case Nodes => "nodes"
    case Storage => "storage"
    case Access => "access"
  }

  function RootSegment(root: KubeRoot): string {
    match root
    case Overview => "overview"
    case LensRoot(lens) => LensSegment(lens)
    case KindRoot(group, kind) => KindSegment(kind, group)
  }

  function RootOf(segment: string): KubeRoot {
    if segment == "nodes" then LensRoot(Nodes)
    else if segment == "storage" then LensRoot(Storage)
    else if segment == "access" then LensRoot(Access)
    else if segment == "overview" then Overview
    else var (kind, group) := SplitKind(segment); KindRoot(group, kind)
  }

  function OrElse(s: string, default: string): string {
    if s == "" then default else s
  }

  function ViewSegments(view: KubeView): (segments: seq<string>)
    ensures |segments| == 3
  {
    match view
    case NodeView(name) => ["Node", NO_NAMESPACE, name]
    case ObjectView(namespace, kind, group, name) =>
      [KindSegment(kind, group), OrElse(if namespace.None? then "" else namespace.value, NO_NAMESPACE), name]
  }

  function ViewOf(kindSegment: string, namespace: string, name: string): KubeView {
    var (kind, group) := SplitKind(kindSegment);
    if kind == "Node" && group == "" then NodeView(name)
    else ObjectView(Some(if namespace == NO_NAMESPACE then "" else namespace), kind, group, name)
  }

  function DrillSegments(drills: seq<KubeView>): seq<string> {
    if drills == [] then [] else ViewSegments(drills[0]) + DrillSegments(drills[1..])
  }

  /** Complete triples become drills; an incomplete last one is dropped. */
  function DrillsOf(segments: seq<string>): seq<KubeView> {
    if |segments| < 3 then [] else [ViewOf(segments[0], segments[1], segments[2])] + DrillsOf(segments[3..])
  }

  function Segments(route: KubeRoute): seq<string> {
    [route.cluster, OrElse(route.namespace, ALL_NAMESPACES), RootSegment(route.root)] + DrillSegments(route.drills)
  }

  /** The segment at an index, or a default when the hash ends before it. */
  function SegmentOr(segments: seq<string>, index: nat, default: string): string {
    if index < |segments| then segments[index] else default
  }

  function RouteOf(segments: seq<string>): KubeRoute
    requires segments != []
  {
    var namespace := SegmentOr(segments, 1, ALL_NAMESPACES);
    KubeRoute(segments[0], if namespace == ALL_NAMESPACES then "" else namespace,
              RootOf(SegmentOr(segments, 2, "overview")), if |segments| < 3 then [] else DrillsOf(segments[3..]))
  }

  // Hashes

  function EncodeAll(segments: seq<string>): (r: seq<string>)
    ensures |r| == |segments|
  {
    if segments == [] then [] else [Encode(segments[0])] + EncodeAll(segments[1..])
  }

  function DecodeAll(pieces: seq<string>): (r: Option<seq<string>>)
    ensures r.Some? ==> |r.value| == |pieces|
  {
    if pieces == [] then Some([])
    else
      var first, rest := Decode(pieces[0]), DecodeAll(pieces[1..]);
      if first.None? || rest.None? then None else Some([first.value] + rest.value)
  }

  function HashOf(route: KubeRoute): string {
    PREFIX + Join(EncodeAll(Segments(route)), '/')
  }

  /** parseKubeHash returns null, throws a URIError, or returns a route. */
  datatype Parsed = NoRoute | UriError | Found(route: KubeRoute)

  function ParseHash(hash: string): Parsed {
    if !(PREFIX <= hash) then NoRoute
    else
      var segments := DecodeAll(Split(hash[|PREFIX|..], '/'));
      if segments.None? then UriError
      else if segments.value[0] == "" then NoRoute
      else Found(RouteOf(segments.value))
  }

  method ToKubeHash(route: KubeRoute) returns (hash: string)
    ensures hash == HashOf(route)
  {
    var segments := [route.cluster, OrElse(route.namespace, ALL_NAMESPACES), RootSegment(route.root)];
    ghost var head := segments;
    EmptyLeft(DrillSegments(route.drills));
    assert route.drills[0..] == route.drills;
    for i := 0 to |route.drills|
      invariant Segments(route) == segments + DrillSegments(route.drills[i..])
    {
      var view := route.drills[i];
      Assoc(segments, ViewSegments(view), DrillSegments(route.drills[i + 1..]));
      DropDrop(route.drills, i, 1);
      match view {
        case NodeView(name) => segments := segments + ["Node", NO_NAMESPACE, name];
        case ObjectView(namespace, kind, group, name) =>
          segments := segments + [KindSegment(kind, group),
              OrElse(if namespace.None? then "" else namespace.value, NO_NAMESPACE), name];
      }
    }
    EmptyRight(segments);
    return PREFIX + Join(EncodeAll(segments), '/');
  }

  method ParseKubeHash(hash: string) returns (parsed: Parsed)
    ensures parsed == ParseHash(hash)
  {
    if !(PREFIX <= hash) {
      return NoRoute;
    }
    var decoded := DecodeAll(Split(hash[|PREFIX|..], '/'));
    if decoded.None? {
      return UriError;
    }
    var segments := decoded.value;
    var cluster := segments[0];
    if cluster == "" {
      return NoRoute;
    }
    var namespace := SegmentOr(segments, 1, ALL_NAMESPACES);
    var root := RootOf(SegmentOr(segments, 2, "overview"));
    var rest := if |segments| < 3 then [] else segments[3..];
    var drills, i := [], 0;
    EmptyLeft(DrillsOf(rest));
    assert rest[0..] == rest;
    while i + 2 < |rest|
      invariant 0 <= i <= |rest|
      invariant DrillsOf(rest) == drills + DrillsOf(rest[i..])
      decreases |rest| - i
    {
      var view := ViewOf(rest[i], rest[i + 1], rest[i + 2]);
      DropDrop(rest, i, 3);
      Assoc(drills, [view], DrillsOf(rest[i + 3..]));
      drills := drills + [view];
      i := i + 3;
    }
    EmptyRight(drills);
    return Found(KubeRoute(cluster, if namespace == ALL_NAMESPACES then "" else namespace, root, drills));
  }

  // The round trip

  ghost predicate Reserved(segment: string) {
    segment == "overview" || segment == "nodes" || segment == "storage" || segment == "access"
  }

  ghost predicate WellFormedRoot(root: KubeRoot) {
    root.KindRoot? ==> Free('.', root.kind) && !(root.group == "" && Reserved(root.kind))
  }

  ghost predicate WellFormedView(view: KubeView) {
    view.ObjectView? ==>
      && view.namespace.Some? && view.namespace.value != NO_NAMESPACE
      && Free('.', view.kind) && !(view.kind == "Node" && view.group == "")
  }

  ghost predicate WellFormed(route: KubeRoute) {
    && route.cluster != "" && route.namespace != ALL_NAMESPACES
    && WellFormedRoot(route.root)
    && forall i :: 0 <= i < |route.drills| ==> WellFormedView(route.drills[i])
  }

  lemma RootRoundTrip(root: KubeRoot)
    ensures RootOf(RootSegment(root)) == root <==> WellFormedRoot(root)
  {
    if root.KindRoot? {
      var segment := RootSegment(root);
      if Free('.', root.kind) {
        SplitKindOfSegment(root.kind, root.group);
        if root.group != "" {
          assert '.' in segment;
          assert '.' !in "overview" && '.' !in "nodes" && '.' !in "storage" && '.' !in "access";
        }
      } else {
        SplitKindMeaning(segment);
      }
    }
  }

  lemma ViewRoundTrip(view: KubeView)
    ensures var s := ViewSegments(view);
            ViewOf(s[0], s[1], s[2]) == view <==> WellFormedView(view)
  {
    match view {
      case NodeView(_) => SplitWhole("Node", '.');
      case ObjectView(_, kind, group, _) =>
        if Free('.', kind) {
          SplitKindOfSegment(kind, group);
        } else {
          SplitKindMeaning(KindSegment(kind, group));
        }
    }
  }

  lemma {:induction false} DrillsRoundTrip(drills: seq<KubeView>)
    ensures DrillsOf(DrillSegments(drills)) == drills <==> forall i :: 0 <= i < |drills| ==> WellFormedView(drills[i])
  {
    if drills != [] {
      var s := DrillSegments(drills);
      TakeDrop(ViewSegments(drills[0]), DrillSegments(drills[1..]));
      ViewRoundTrip(drills[0]);
      DrillsRoundTrip(drills[1..]);
      var d := DrillsOf(s);
      assert d[0] == ViewOf(s[0], s[1], s[2]) && d[1..] == DrillsOf(DrillSegments(drills[1..]));
      assert d == drills <==> d[0] == drills[0] && d[1..] == drills[1..] by {
        if d[0] == drills[0] && d[1..] == drills[1..] {
          assert d == [d[0]] + d[1..] == [drills[0]] + drills[1..] == drills;
        }
      }
      assert (forall i :: 0 <= i < |drills| ==> WellFormedView(drills[i])) <==>
             WellFormedView(drills[0]) && forall i :: 0 <= i < |drills[1..]| ==> WellFormedView(drills[1..][i]) by {
        assert forall i :: 1 <= i < |drills| ==> drills[i] == drills[1..][i - 1];
      }
    }
  }

  lemma {:induction false} DecodeInvertsEncodeAll(segments: seq<string>)
    ensures DecodeAll(EncodeAll(segments)) == Some(segments)
    ensures forall piece :: piece in EncodeAll(segments) ==> Free('/', piece)
  {
    if segments != [] {
      DecodeInvertsEncode(segments[0]);
      EncodedHasNoSlash(segments[0]);
      DecodeInvertsEncodeAll(segments[1..]);
      TakeDrop([Encode(segments[0])], EncodeAll(segments[1..]));
      assert [segments[0]] + segments[1..] == segments;
    }
  }

  /** Reading back the segments a hash was written from. */
  lemma ParseOfHash(route: KubeRoute)
    ensures ParseHash(HashOf(route)) == if route.cluster == "" then NoRoute else Found(RouteOf(Segments(route)))
  {
    var pieces := EncodeAll(Segments(route));
    DecodeInvertsEncodeAll(Segments(route));
    SplitInvertsJoin(pieces, '/');
    TakeDrop(PREFIX, Join(pieces, '/'));
  }

  /** A route is read back from its hash exactly if it is well-formed. */
  lemma RoundTrip(route: KubeRoute)
    ensures ParseHash(HashOf(route)) == Found(route) <==> WellFormed(route)
  {
    var segments := Segments(route);
    ParseOfHash(route);
    TakeDrop(segments[..3], DrillSegments(route.drills));
    assert segments == segments[..3] + DrillSegments(route.drills);
    RootRoundTrip(route.root);
    DrillsRoundTrip(route.drills);
  }

  /** Distinct well-formed routes have distinct hashes. */
  lemma HashesAreDistinct(r1: KubeRoute, r2: KubeRoute)
    requires WellFormed(r1) && WellFormed(r2) && HashOf(r1) == HashOf(r2)
    ensures r1 == r2
  {
    RoundTrip(r1);
    RoundTrip(r2);
  }

  // What parsing yields

  lemma {:induction false} ParsedDrillsAreWellFormed(segments: seq<string>)
    ensures forall i :: 0 <= i < |DrillsOf(segments)| ==> WellFormedView(DrillsOf(segments)[i])
  {
    if |segments| >= 3 {
      SplitKindMeaning(segments[0]);
      ParsedDrillsAreWellFormed(segments[3..]);
    }
  }

  lemma ParsedRootIsWellFormed(segment: string)
    ensures WellFormedRoot(RootOf(segment)) <==> !(exists word :: Reserved(word) && segment == word + ".")
  {
    SplitKindMeaning(segment);
    forall word | Reserved(word) && segment == word + "."
      ensures SplitKind(segment) == (word, "") && !Reserved(segment)
    {
      assert word + "." == word + "." + "";
      SplitAtFirst(word, "", '.');
      assert segment[|word|] == '.';
    }
  }

  /** The root segment a hash names, decoded. */
  ghost function NamedRoot(hash: string): string
    requires ParseHash(hash).Found?
  {
    SegmentOr(DecodeAll(Split(hash[|PREFIX|..], '/')).value, 2, "overview")
  }

  /** Every route read from a hash is well-formed, unless the hash names as its root a reserved word
      followed by a dot. */
  lemma ParsedRouteIsWellFormed(hash: string)
    requires ParseHash(hash).Found?
    ensures WellFormed(ParseHash(hash).route) <==> !(exists word :: Reserved(word) && NamedRoot(hash) == word + ".")
  {
    var segments := DecodeAll(Split(hash[|PREFIX|..], '/')).value;
    ParsedRootIsWellFormed(NamedRoot(hash));
    if |segments| >= 3 {
      ParsedDrillsAreWellFormed(segments[3..]);
    }
  }

  // Which hashes these are

  /** The segment of a kind: the kind alone or, with its group, joined by a dot. */
  ghost predicate KindSpelled(segment: string, kind: string, group: string) {
    Free('.', kind) && ((group == "" && segment == kind) || segment == kind + "." + group)
  }

  ghost predicate RootSpelled(segment: string, root: KubeRoot) {
    match root
    case Overview => segment == "overview"
    case LensRoot(Nodes) => segment == "nodes"
    case LensRoot(Storage) => segment == "storage"
    case LensRoot(Access) => segment == "access"
    case KindRoot(group, kind) =>
      KindSpelled(segment, kind, group) && segment !in {"overview", "nodes", "storage", "access"}
  }

  ghost predicate ViewSpelled(kind: string, namespace: string, name: string, view: KubeView) {
    match view
    case NodeView(n) => n == name && (kind == "Node" || kind == "Node.")
    case ObjectView(home, k, group, n) =>
      n == name && KindSpelled(kind, k, group) && !(k == "Node" && group == "")
      && home == Some(if namespace == "-" then "" else namespace)
  }

  /** The route that segments are read as.  Missing ones stand for the overview of all namespaces, and an
      incomplete last view is dropped. */
  ghost predicate ReadsAs(segments: seq<string>, route: KubeRoute)
    requires segments != []
  {
    && route.cluster == segments[0]
    && route.namespace == (if |segments| < 2 || segments[1] == "*" then "" else segments[1])
    && (if |segments| < 3 then route.root == Overview && route.drills == []
        else
          && RootSpelled(segments[2], route.root)
          && |route.drills| == (|segments| - 3) / 3
          && forall i :: 0 <= i < |route.drills| ==>
               ViewSpelled(segments[3 + 3 * i], segments[4 + 3 * i], segments[5 + 3 * i], route.drills[i]))
  }

  lemma SplitKindIsSpelled(segment: string)
    ensures KindSpelled(segment, SplitKind(segment).0, SplitKind(segment).1)
  {
    SplitKindMeaning(segment);
  }

  lemma RootIsSpelled(segment: string)
    ensures RootSpelled(segment, RootOf(segment))
  {
    SplitKindIsSpelled(segment);
    hide SplitKind, KindSpelled;
  }

  lemma ViewIsSpelled(kind: string, namespace: string, name: string)
    ensures ViewSpelled(kind, namespace, name, ViewOf(kind, namespace, name))
  {
    SplitKindIsSpelled(kind);
    hide SplitKind;
    assert "Node" + "." + "" == "Node.";
  }

  lemma {:induction false} DrillsAreSpelled(segments: seq<string>)
    ensures |DrillsOf(segments)| == |segments| / 3
    ensures forall i :: 0 <= i < |segments| / 3 ==>
              ViewSpelled(segments[3 * i], segments[3 * i + 1], segments[3 * i + 2], DrillsOf(segments)[i])
  {
    hide ViewSpelled, ViewOf;
    if |segments| >= 3 {
      DrillsAreSpelled(segments[3..]);
      ViewIsSpelled(segments[0], segments[1], segments[2]);
      assert forall i :: 0 < i < |segments| / 3 ==>
          DrillsOf(segments)[i] == DrillsOf(segments[3..])[i - 1]
          && segments[3 * i] == segments[3..][3 * (i - 1)] && segments[3 * i + 1] == segments[3..][3 * (i - 1) + 1]
          && segments[3 * i + 2] == segments[3..][3 * (i - 1) + 2];
    }
  }

  lemma RouteIsRead(segments: seq<string>)
    requires segments != []
    ensures ReadsAs(segments, RouteOf(segments))
  {
    hide RootSpelled, ViewSpelled, ViewOf;
    if |segments| >= 3 {
      hide RootOf;
      RootIsSpelled(segments[2]);
      var rest, drills := segments[3..], DrillsOf(segments[3..]);
      DrillsAreSpelled(rest);
      forall i | 0 <= i < |drills|
        ensures ViewSpelled(segments[3 + 3 * i], segments[4 + 3 * i], segments[5 + 3 * i], drills[i])
      {
        assert rest[3 * i] == segments[3 + 3 * i] && rest[3 * i + 1] == segments[4 + 3 * i];
        assert rest[3 * i + 2] == segments[5 + 3 * i];
      }
    } else {
      assert RootOf("overview") == Overview;
    }
  }

  /** The segments are what the pieces between the slashes of the hash decode to. */
  ghost predicate Decodes(hash: string, segments: seq<string>) {
    && "#/k8s/" <= hash && |segments| == |Split(hash[6..], '/')|
    && forall i :: 0 <= i < |segments| ==> Decode(Split(hash[6..], '/')[i]) == Some(segments[i])
  }

  ghost predicate HasBadPiece(pieces: seq<string>) {
    exists i :: 0 <= i < |pieces| && Decode(pieces[i]).None?
  }

  lemma {:induction false} DecodeAllMeaning(pieces: seq<string>)
    ensures DecodeAll(pieces).None? <==> HasBadPiece(pieces)
    ensures DecodeAll(pieces).Some? ==> forall i :: 0 <= i < |pieces| ==>
              Decode(pieces[i]) == Some(DecodeAll(pieces).value[i])
  {
    hide Decode;
    if pieces != [] {
      DecodeAllMeaning(pieces[1..]);
    }
  }

  /** What a hash is read as: nothing without the prefix or without a cluster, an error if a piece of it
      does not decode, and otherwise the route its segments spell. */
  lemma ParseMeaning(hash: string)
    ensures ParseHash(hash).UriError?
            <==> "#/k8s/" <= hash && HasBadPiece(Split(hash[6..], '/'))
    ensures forall segments :: Decodes(hash, segments) && segments != [] && segments[0] == "" ==>
              ParseHash(hash) == NoRoute
    ensures forall segments :: Decodes(hash, segments) && segments != [] && segments[0] != "" ==>
              ParseHash(hash).Found? && ReadsAs(segments, ParseHash(hash).route)
    ensures !("#/k8s/" <= hash) ==> ParseHash(hash) == NoRoute
  {
    hide ReadsAs, Decode, DecodeAll, RouteOf;
    if "#/k8s/" <= hash {
      hide Split;
      assert |PREFIX| == 6;
      var pieces := Split(hash[6..], '/');
      DecodeAllMeaning(pieces);
      forall segments | Decodes(hash, segments) && segments != []
        ensures DecodeAll(pieces) == Some(segments)
        ensures segments[0] != "" ==> ReadsAs(segments, RouteOf(segments))
      {
        assert DecodeAll(pieces).value == segments;
        RouteIsRead(segments);
      }
    }
  }

  // What is written

  ghost predicate ViewWritten(kind: string, namespace: string, name: string, view: KubeView) {
    match view
    case NodeView(n) => kind == "Node" && namespace == "-" && name == n
    case ObjectView(home, k, group, n) =>
      kind == (if group == "" then k else k + "." + group) && name == n
      && namespace == (if home == None || home == Some("") then "-" else home.value)
  }

  lemma {:induction false} DrillsAreWritten(drills: seq<KubeView>)
    ensures |DrillSegments(drills)| == 3 * |drills|
    ensures forall i :: 0 <= i < |drills| ==>
              var s := DrillSegments(drills);
              ViewWritten(s[3 * i], s[3 * i + 1], s[3 * i + 2], drills[i])
  {
    hide KindSegment, ViewSegments, ViewWritten;
    if drills != [] {
      DrillsAreWritten(drills[1..]);
      var s, rest := DrillSegments(drills), DrillSegments(drills[1..]);
      ViewIsWritten(drills[0]);
      assert forall k :: 3 <= k < |s| ==> s[k] == rest[k - 3];
    }
  }

  lemma ViewIsWritten(view: KubeView)
    ensures var s := ViewSegments(view); ViewWritten(s[0], s[1], s[2], view)
  {
  }

  /** The hash of a route: the prefix, then its segments, each encoded, between slashes. */
  lemma HashIsWritten(route: KubeRoute)
    ensures var s := Segments(route);
            && |s| == 3 + 3 * |route.drills|
            && s[0] == route.cluster && s[1] == (if route.namespace == "" then "*" else route.namespace)
            && (WellFormedRoot(route.root) ==> RootSpelled(s[2], route.root))
            && (forall i :: 0 <= i < |route.drills| ==>
                  ViewWritten(s[3 + 3 * i], s[4 + 3 * i], s[5 + 3 * i], route.drills[i]))
            && |EncodeAll(s)| == |s| && HashOf(route) == "#/k8s/" + Join(EncodeAll(s), '/')
            && forall i :: 0 <= i < |s| ==> EncodeAll(s)[i] == Encode(s[i])
  {
    DrillsAreWritten(route.drills);
    EncodeAllAt(Segments(route));
    RootRoundTrip(route.root);
    RootIsSpelled(RootSegment(route.root));
    hide RootSpelled, WellFormedRoot, RootSegment, RootOf, ViewWritten, DrillSegments, Encode, EncodeAll, Join;
    var s := Segments(route);
    assert forall k :: 3 <= k < |s| ==> s[k] == DrillSegments(route.drills)[k - 3];
  }

  lemma {:induction false} EncodeAllAt(segments: seq<string>)
    ensures forall i :: 0 <= i < |segments| ==> EncodeAll(segments)[i] == Encode(segments[i])
  {
    hide Encode;
    if segments != [] {
      EncodeAllAt(segments[1..]);
    }
  }
}
