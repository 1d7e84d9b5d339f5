/** addServiceAccounts of kube_namespace_rbac.go: workload, ServiceAccount, binding, role. */
module ServiceAccounts {
  import opened GraphBuilder
  import opened KubeObjects
  import opened NamespaceGraph
  import opened PodAttribution
  import opened PodOwners
  import opened Sets
  import opened TopologyGraph
  import opened Wrappers

  const DEFAULT_ACCOUNT := "default"

  // Who runs as which account

  type Users = map<string, seq<string>>

  function AccountOf(o: Owner): string {
    if o.spec.serviceAccount == "" then DEFAULT_ACCOUNT else o.spec.serviceAccount
  }

  /** Pods that name no account run as "default". */
  ghost predicate RunsAs(o: Owner, account: string) {
    if o.spec.serviceAccount == "" then account == "default" else account == o.spec.serviceAccount
  }

  lemma RunsAsMeaning(o: Owner, account: string)
    ensures RunsAs(o, account) <==> AccountOf(o) == account
  {
  }

  function UsersFor(usedBy: Users, account: string): seq<string> {
    if account in usedBy then usedBy[account] else []
  }

  /** The owners that run as an account, by ID. */
  function UsersOf(owners: seq<Owner>, account: string, n: nat): seq<string>
    requires n <= |owners|
  {
    if n == 0 then []
    else if AccountOf(owners[n - 1]) == account then UsersOf(owners, account, n - 1) + [owners[n - 1].node.id]
    else UsersOf(owners, account, n - 1)
  }

  ghost predicate UsersAre(usedBy: Users, owners: seq<Owner>, n: nat)
    requires n <= |owners|
  {
    forall account :: UsersFor(usedBy, account) == UsersOf(owners, account, n)
        && (account in usedBy <==> UsersOf(owners, account, n) != [])
  }

  method CollectUsers(owners: NamespaceOwners) returns (usedBy: Users)
    ensures UsersAre(usedBy, owners.owners, |owners.owners|)
  {
    usedBy := map[];
    for i := 0 to |owners.owners|
      invariant UsersAre(usedBy, owners.owners, i)
    {
      var o := owners.owners[i];
      var account := o.spec.serviceAccount;
      if account == "" {
        account := DEFAULT_ACCOUNT;
      }
      usedBy := usedBy[account := UsersFor(usedBy, account) + [o.node.id]];
    }
  }

  lemma {:induction false} UsersOfMeaning(owners: seq<Owner>, account: string, n: nat, id: string)
    requires n <= |owners|
    ensures id in UsersOf(owners, account, n)
            <==> exists i :: 0 <= i < n && AccountOf(owners[i]) == account && owners[i].node.id == id
  {
    hide AccountOf;
    if n > 0 {
      UsersOfMeaning(owners, account, n - 1, id);
    }
  }

  // Bindings

  /** `accounts` are the drawn accounts the binding grants its role to. */
  datatype AccountBinding = AccountBinding(kind: string, name: string, namespace: string, roleRef: RoleRef,
      accounts: seq<string>)

  predicate Names(sub: Subject, bindingNamespace: string, namespace: string, accounts: set<string>) {
    && sub.kind == "ServiceAccount" && sub.name in accounts
    && (if sub.namespace == "" then bindingNamespace else sub.namespace) == namespace
  }

  function NamedAccounts(subjects: seq<Subject>, bindingNamespace: string, namespace: string, accounts: set<string>,
      n: nat): seq<string>
    requires n <= |subjects|
  {
    if n == 0 then []
    else if Names(subjects[n - 1], bindingNamespace, namespace, accounts)
    then NamedAccounts(subjects, bindingNamespace, namespace, accounts, n - 1) + [subjects[n - 1].name]
    else NamedAccounts(subjects, bindingNamespace, namespace, accounts, n - 1)
  }

  method MatchAccounts(subjects: seq<Subject>, bindingNamespace: string, namespace: string,
      accounts: set<string>) returns (names: seq<string>)
    ensures names == NamedAccounts(subjects, bindingNamespace, namespace, accounts, |subjects|)
  {
    names := [];
    for i := 0 to |subjects|
      invariant names == NamedAccounts(subjects, bindingNamespace, namespace, accounts, i)
    {
      var sub := subjects[i];
      var subNamespace := sub.namespace;
      if subNamespace == "" {
        subNamespace := bindingNamespace;
      }
      if sub.kind == "ServiceAccount" && subNamespace == namespace && sub.name in accounts {
        names := names + [sub.name];
      }
    }
  }

  /** The bindings of one kind that name an account; those of the cluster have no namespace. */
  function BindingsNaming(
    bindings: seq<Binding>, kind: string, home: string, namespace: string, accounts: set<string>, n: nat)
    : seq<AccountBinding>
    requires n <= |bindings|
  {
    if n == 0 then []
    else
      var b := bindings[n - 1];
      var names := NamedAccounts(b.subjects, home, namespace, accounts, |b.subjects|);
      var before := BindingsNaming(bindings, kind, home, namespace, accounts, n - 1);
      if names == [] then before else before + [AccountBinding(kind, b.name, home, b.roleRef, names)]
  }

  method MatchBindings(bindings: seq<Binding>, kind: string, home: string, namespace: string, accounts: set<string>)
    returns (result: seq<AccountBinding>)
    ensures result == BindingsNaming(bindings, kind, home, namespace, accounts, |bindings|)
  {
    hide NamedAccounts;
    result := [];
    for i := 0 to |bindings|
      invariant result == BindingsNaming(bindings, kind, home, namespace, accounts, i)
    {
      var b := bindings[i];
      var names := MatchAccounts(b.subjects, home, namespace, accounts);
      if |names| > 0 {
        result := result + [AccountBinding(kind, b.name, home, b.roleRef, names)];
      }
    }
  }

  /** bindingsFor: RoleBindings first.  A list the user may not read ends the search with what was
      found before it; None for any other error. */
  function BindingsFor(
    namespace: string, accounts: set<string>, roleBindings: Listing<Binding>, clusterBindings: Listing<Binding>)
    : Option<seq<AccountBinding>>
  {
    match roleBindings
    case Failed => None
    case Hidden => Some([])
    case Items(own) =>
      var first := BindingsNaming(own, "RoleBinding", namespace, namespace, accounts, |own|);
      match clusterBindings
      case Failed => None
      case Hidden => Some(first)
      case Items(all) => Some(first + BindingsNaming(all, "ClusterRoleBinding", "", namespace, accounts, |all|))
  }

  method ReadBindings(
    namespace: string, accounts: set<string>, roleBindings: Listing<Binding>, clusterBindings: Listing<Binding>)
    returns (bindings: Option<seq<AccountBinding>>)
    ensures bindings == BindingsFor(namespace, accounts, roleBindings, clusterBindings)
  {
    hide BindingsNaming;
    if !roleBindings.Items? {
      return if roleBindings.Hidden? then Some([]) else None;
    }
    var result := MatchBindings(roleBindings.items, "RoleBinding", namespace, namespace, accounts);
    if !clusterBindings.Items? {
      return if clusterBindings.Hidden? then Some(result) else None;
    }
    var more := MatchBindings(clusterBindings.items, "ClusterRoleBinding", "", namespace, accounts);
    return Some(result + more);
  }

  /** The bindings read, as far as they name the accounts the owners run as. */
  function AccountBindings(namespace: string, accounts: set<string>, own: seq<Binding>, all: seq<Binding>)
    : seq<AccountBinding>
  {
    BindingsNaming(own, "RoleBinding", namespace, namespace, accounts, |own|)
    + BindingsNaming(all, "ClusterRoleBinding", "", namespace, accounts, |all|)
  }

  lemma {:induction false} NamedAccountsMeaning(
    subjects: seq<Subject>, bindingNamespace: string, namespace: string, accounts: set<string>, n: nat, name: string)
    requires n <= |subjects|
    ensures name in NamedAccounts(subjects, bindingNamespace, namespace, accounts, n) <==>
            exists k :: 0 <= k < n && subjects[k].name == name
                        && Names(subjects[k], bindingNamespace, namespace, accounts)
  {
    hide Names;
    if n > 0 {
      NamedAccountsMeaning(subjects, bindingNamespace, namespace, accounts, n - 1, name);
    }
  }

  /** A binding is kept, with the accounts it names, if it names any. */
  lemma {:induction false} BindingsNamingMeaning(
    bindings: seq<Binding>, kind: string, home: string, namespace: string, accounts: set<string>, n: nat,
    b: AccountBinding)
    requires n <= |bindings|
    ensures b in BindingsNaming(bindings, kind, home, namespace, accounts, n) <==>
            exists i :: 0 <= i < n && KeptAs(bindings[i], kind, home, namespace, accounts, b)
  {
    hide NamedAccounts;
    if n > 0 {
      BindingsNamingMeaning(bindings, kind, home, namespace, accounts, n - 1, b);
    }
  }

  ghost predicate KeptAs(
    b: Binding, kind: string, home: string, namespace: string, accounts: set<string>, kept: AccountBinding)
  {
    var names := NamedAccounts(b.subjects, home, namespace, accounts, |b.subjects|);
    names != [] && kept == AccountBinding(kind, b.name, home, b.roleRef, names)
  }

  lemma {:induction false} NoAccountsNoBindings(
    bindings: seq<Binding>, kind: string, home: string, namespace: string, n: nat)
    requires n <= |bindings|
    ensures BindingsNaming(bindings, kind, home, namespace, {}, n) == []
  {
    if n > 0 {
      NoAccountsNoBindings(bindings, kind, home, namespace, n - 1);
      var b := bindings[n - 1];
      var names := NamedAccounts(b.subjects, home, namespace, {}, |b.subjects|);
      if names != [] {
        NamedAccountsMeaning(b.subjects, home, namespace, {}, |b.subjects|, names[0]);
      }
    }
  }

  // Drawing accounts

  function AccountNode(namespace: string, name: string): Node {
    Plain("ServiceAccount", namespace, name, Healthy, false, 1)
  }

  ghost function AccountEdges(namespace: string, usedBy: Users, name: string): (edges: set<Edge>)
    ensures NoAllows(edges)
  {
    LinksFrom((set id | id in UsersFor(usedBy, name)), AccountNode(namespace, name).id, "runs-as")
  }

  ghost function AllAccountEdges(namespace: string, usedBy: Users, names: set<string>): (edges: set<Edge>)
    ensures NoAllows(edges)
  {
    set name, e | name in names && e in AccountEdges(namespace, usedBy, name) :: e
  }

  ghost function AccountNodes(namespace: string, names: set<string>): set<Node> {
    set name | name in names :: Stored(AccountNode(namespace, name))
  }

  lemma OneAccount(namespace: string, usedBy: Users, name: string)
    ensures AllAccountEdges(namespace, usedBy, {name}) == AccountEdges(namespace, usedBy, name)
    ensures AccountNodes(namespace, {name}) == {Stored(AccountNode(namespace, name))}
  {
    hide NoAllows, AccountEdges, Stored, AccountNode;
  }

  lemma NoAccounts(namespace: string, usedBy: Users)
    ensures AllAccountEdges(namespace, usedBy, {}) == {} && AccountNodes(namespace, {}) == {}
  {
  }

  lemma AccountsUnion(namespace: string, usedBy: Users, a: set<string>, b: set<string>)
    ensures AllAccountEdges(namespace, usedBy, a + b)
            == AllAccountEdges(namespace, usedBy, a) + AllAccountEdges(namespace, usedBy, b)
    ensures AccountNodes(namespace, a + b) == AccountNodes(namespace, a) + AccountNodes(namespace, b)
  {
    hide NoAllows, AccountEdges, Stored, AccountNode;
  }

  ghost predicate UsersDrawn(ids: set<string>, usedBy: Users) {
    forall account, id :: id in UsersFor(usedBy, account) ==> id in ids
  }

  // Which accounts are drawn

  ghost function AccountIds(namespace: string, names: set<string>): set<string> {
    set name | name in names :: AccountNode(namespace, name).id
  }

  lemma AccountIdInjective(namespace: string, a: string, b: string)
    requires AccountNode(namespace, a).id == AccountNode(namespace, b).id
    ensures a == b
  {
    SameIdSameName("ServiceAccount", namespace, a, b);
  }

  lemma UsersStillDrawn(before: set<string>, after: set<string>, usedBy: Users)
    requires UsersDrawn(before, usedBy) && before <= after
    ensures UsersDrawn(after, usedBy)
  {
  }

  /** Of these accounts, those whose IDs are free. */
  ghost function FreshNames(namespace: string, ids: set<string>, names: set<string>): set<string> {
    set name | name in names && AccountNode(namespace, name).id !in ids
  }

  /** One more account: its ID is taken from then on, whether it was drawn or not. */
  lemma FreshMore(namespace: string, ids: set<string>, names: set<string>, name: string)
    ensures var id := AccountNode(namespace, name).id;
            && FreshNames(namespace, ids, names + {name})
               == FreshNames(namespace, ids, names) + (if id in ids + AccountIds(namespace, names) then {} else {name})
            && AccountIds(namespace, names + {name}) == AccountIds(namespace, names) + {id}
    ensures FreshNames(namespace, ids, {}) == {} && AccountIds(namespace, {}) == {}
  {
    var id := AccountNode(namespace, name).id;
    if id in AccountIds(namespace, names) {
      var other :| other in names && AccountNode(namespace, other).id == id;
      AccountIdInjective(namespace, name, other);
    }
    hide AccountNode;
  }

  /** The closure addAccount: an account whose ID is taken gets no edges. */
  method AddAccount(
    g: Builder, namespace: string, usedBy: Users, name: string) returns (id: string, ghost more: set<string>)
    requires g.Valid() && UsersDrawn(g.nodeIds, usedBy)
    modifies g`nodes, g`nodeIds, g`written, g`edges, g`edgeSet
    ensures g.Valid() && id == AccountNode(namespace, name).id && g.nodeIds == old(g.nodeIds) + {id}
    ensures forall before :: old(g.Good(before)) ==> g.Good(before)
    ensures more == if id in old(g.nodeIds) then {} else {name}
    ensures g.edgeSet == old(g.edgeSet) + AllAccountEdges(namespace, usedBy, more)
    ensures g.written == old(g.written) + AccountNodes(namespace, more)
  {
    hide Builder.Valid, Builder.Good, NoAllows, Stored, NodeId, UsersFor, LinksFrom, AllAccountEdges;
    hide AccountNodes;
    OneAccount(namespace, usedBy, name);
    NoAccounts(namespace, usedBy);
    var node := AccountNode(namespace, name);
    id, more := node.id, {};
    if !g.HasNode(id) {
      g.AddNode(node);
      AddUsers(g, UsersFor(usedBy, name), id);
      more := {name};
    } else {
      assert g.nodeIds == g.nodeIds + {id};
    }
  }

  method AddUsers(g: Builder, users: seq<string>, id: string)
    requires g.Valid() && id in g.nodeIds && forall user :: user in users ==> user in g.nodeIds
    modifies g`edges, g`edgeSet
    ensures g.Valid()
    ensures forall before :: old(g.Good(before)) ==> g.Good(before)
    ensures g.edgeSet == old(g.edgeSet) + LinksFrom((set user | user in users), id, "runs-as")
  {
    hide Builder.Valid, Builder.Good, LinksFrom;
    ghost var edges0 := g.edgeSet;
    ghost var done: set<string> := {};
    LinksFromMore({}, "", id, "runs-as");
    for k := 0 to |users|
      invariant g.Valid() && forall before :: old(g.Good(before)) ==> g.Good(before)
      invariant forall user :: user in done <==> user in users[..k]
      invariant g.edgeSet == edges0 + LinksFrom(done, id, "runs-as")
    {
      g.AddEdge(users[k], id, "runs-as");
      LinksFromMore(done, users[k], id, "runs-as");
      assert users[..k + 1] == users[..k] + [users[k]];
      done := done + {users[k]};
    }
    assert users[..|users|] == users;
    assert done == set user | user in users;
  }

  method AddAccounts(
    g: Builder, namespace: string, usedBy: Users, names: seq<string>) returns (ghost drawn: set<string>)
    requires g.Valid() && UsersDrawn(g.nodeIds, usedBy)
    modifies g`nodes, g`nodeIds, g`written, g`edges, g`edgeSet
    ensures g.Valid() && old(g.nodeIds) <= g.nodeIds
    ensures forall before :: old(g.Good(before)) ==> g.Good(before)
    ensures g.nodeIds == old(g.nodeIds) + AccountIds(namespace, Elements(names))
    ensures drawn == FreshNames(namespace, old(g.nodeIds), Elements(names))
    ensures g.edgeSet == old(g.edgeSet) + AllAccountEdges(namespace, usedBy, drawn)
    ensures g.written == old(g.written) + AccountNodes(namespace, drawn)
  {
    ghost var ids0, edges0, written0 := g.nodeIds, g.edgeSet, g.written;
    drawn := {};
    NoAccounts(namespace, usedBy);
    UnionEmpty(edges0);
    UnionEmpty(written0);
    ElementsOfNone(names);
    UnionEmpty(ids0);
    FreshMore(namespace, ids0, {}, "");
    hide Builder.Valid, Builder.Good, NoAllows, Stored, NodeId, AccountNode, UsersDrawn, Elements;
    hide FreshNames, AccountIds, AllAccountEdges, AccountNodes, AccountEdges;
    for k := 0 to |names|
      invariant g.Valid() && ids0 <= g.nodeIds && forall before :: old(g.Good(before)) ==> g.Good(before)
      invariant g.nodeIds == ids0 + AccountIds(namespace, Elements(names[..k]))
      invariant drawn == FreshNames(namespace, ids0, Elements(names[..k]))
      invariant g.edgeSet == edges0 + AllAccountEdges(namespace, usedBy, drawn)
      invariant g.written == written0 + AccountNodes(namespace, drawn)
    {
      UsersStillDrawn(ids0, g.nodeIds, usedBy);
      var _, more := AddAccount(g, namespace, usedBy, names[k]);
      AccountsUnion(namespace, usedBy, drawn, more);
      UnionAssoc(edges0, AllAccountEdges(namespace, usedBy, drawn), AllAccountEdges(namespace, usedBy, more));
      UnionAssoc(written0, AccountNodes(namespace, drawn), AccountNodes(namespace, more));
      ElementsMore(names, k);
      FreshMore(namespace, ids0, Elements(names[..k]), names[k]);
      UnionAssoc(ids0, AccountIds(namespace, Elements(names[..k])), {AccountNode(namespace, names[k]).id});
      drawn := drawn + more;
    }
  }

  // Drawing bindings

  function BindingNode(b: AccountBinding): Node {
    Plain(b.kind, b.namespace, b.name, Healthy, false, 1)
  }

  /** A ClusterRole has no namespace. */
  function RoleNode(namespace: string, role: RoleRef): Node {
    Plain(role.kind, if role.kind == "ClusterRole" then "" else namespace, role.name, Healthy, false, 1)
  }

  ghost function BindEdges(namespace: string, source: string, accounts: seq<string>): (edges: set<Edge>)
    ensures NoAllows(edges)
  {
    Links(source, AccountIds(namespace, Elements(accounts)), "binds")
  }

  lemma BindMore(namespace: string, source: string, accounts: seq<string>, k: nat)
    requires k < |accounts|
    ensures BindEdges(namespace, source, accounts[..k + 1])
            == BindEdges(namespace, source, accounts[..k])
                + {Edge(source, AccountNode(namespace, accounts[k]).id, "binds")}
    ensures BindEdges(namespace, source, accounts[..0]) == {}
  {
    hide NoAllows, AccountNode;
    ElementsMore(accounts, k);
    assert Elements(accounts[..0]) == {};
    hide Elements;
    assert AccountIds(namespace, Elements(accounts[..k]) + {accounts[k]})
        == AccountIds(namespace, Elements(accounts[..k])) + {AccountNode(namespace, accounts[k]).id};
  }

  ghost function RoleEdges(namespace: string, b: AccountBinding): (edges: set<Edge>)
    ensures NoAllows(edges)
  {
    BindEdges(namespace, BindingNode(b).id, b.accounts)
        + {Edge(BindingNode(b).id, RoleNode(namespace, b.roleRef).id, "grants")}
  }

  ghost function RoleNodes(namespace: string, b: AccountBinding): set<Node> {
    {Stored(BindingNode(b))} + {Stored(RoleNode(namespace, b.roleRef))}
  }

  ghost function RoleIds(namespace: string, b: AccountBinding): set<string> {
    {BindingNode(b).id} + {RoleNode(namespace, b.roleRef).id}
  }

  method BindAccount(
    g: Builder, namespace: string, usedBy: Users, source: string, account: string)
    returns (ghost more: set<string>)
    requires g.Valid() && UsersDrawn(g.nodeIds, usedBy) && source in g.nodeIds
    modifies g`nodes, g`nodeIds, g`written, g`edges, g`edgeSet
    ensures g.Valid() && old(g.nodeIds) <= g.nodeIds && UsersDrawn(g.nodeIds, usedBy)
    ensures forall before :: old(g.Good(before)) ==> g.Good(before)
    ensures g.nodeIds == old(g.nodeIds) + {AccountNode(namespace, account).id}
    ensures more == if AccountNode(namespace, account).id in old(g.nodeIds) then {} else {account}
    ensures g.edgeSet == old(g.edgeSet) + AllAccountEdges(namespace, usedBy, more)
              + {Edge(source, AccountNode(namespace, account).id, "binds")}
    ensures g.written == old(g.written) + AccountNodes(namespace, more)
  {
    hide Builder.Valid, Builder.Good, NoAllows, Stored, NodeId, AccountNode, UsersDrawn, AllAccountEdges;
    hide AccountNodes, AccountEdges;
    ghost var ids0 := g.nodeIds;
    var id: string;
    id, more := AddAccount(g, namespace, usedBy, account);
    UsersStillDrawn(ids0, g.nodeIds, usedBy);
    g.AddEdge(source, id, "binds");
  }

  /** The accounts of one binding. */
  method BindAccounts(
    g: Builder, namespace: string, usedBy: Users, source: string, accounts: seq<string>)
    returns (ghost more: set<string>)
    requires g.Valid() && UsersDrawn(g.nodeIds, usedBy) && source in g.nodeIds
    modifies g`nodes, g`nodeIds, g`written, g`edges, g`edgeSet
    ensures g.Valid() && old(g.nodeIds) <= g.nodeIds
    ensures forall before :: old(g.Good(before)) ==> g.Good(before)
    ensures g.nodeIds == old(g.nodeIds) + AccountIds(namespace, Elements(accounts))
    ensures more == FreshNames(namespace, old(g.nodeIds), Elements(accounts))
    ensures g.edgeSet == old(g.edgeSet) + AllAccountEdges(namespace, usedBy, more)
              + BindEdges(namespace, source, accounts)
    ensures g.written == old(g.written) + AccountNodes(namespace, more)
  {
    ghost var ids0, edges0, written0 := g.nodeIds, g.edgeSet, g.written;
    more := {};
    NoBindings(namespace, usedBy, source, accounts, edges0, written0);
    UnionEmpty(ids0);
    ElementsOfNone(accounts);
    FreshMore(namespace, ids0, {}, "");
    hide FreshNames, AccountIds;
    hide Builder.Valid, Builder.Good, NoAllows, Stored, NodeId, AccountNode, UsersDrawn, Elements;
    hide AllAccountEdges, AccountNodes, AccountEdges, BindEdges;
    for k := 0 to |accounts|
      invariant g.Valid() && ids0 <= g.nodeIds && UsersDrawn(g.nodeIds, usedBy)
      invariant forall before :: old(g.Good(before)) ==> g.Good(before)
      invariant g.nodeIds == ids0 + AccountIds(namespace, Elements(accounts[..k]))
      invariant more == FreshNames(namespace, ids0, Elements(accounts[..k]))
      invariant g.edgeSet == edges0 + AllAccountEdges(namespace, usedBy, more)
                + BindEdges(namespace, source, accounts[..k])
      invariant g.written == written0 + AccountNodes(namespace, more)
    {
      ghost var another := BindAccount(g, namespace, usedBy, source, accounts[k]);
      BindStep(namespace, usedBy, source, accounts, k, edges0, written0, more, another);
      ElementsMore(accounts, k);
      FreshMore(namespace, ids0, Elements(accounts[..k]), accounts[k]);
      UnionAssoc(ids0, AccountIds(namespace, Elements(accounts[..k])), {AccountNode(namespace, accounts[k]).id});
      more := more + another;
    }
  }

  lemma NoBindings(
    namespace: string, usedBy: Users, source: string, accounts: seq<string>,
    edges: set<Edge>, written: set<Node>)
    ensures accounts[..|accounts|] == accounts
    ensures edges == edges + AllAccountEdges(namespace, usedBy, {}) + BindEdges(namespace, source, accounts[..0])
    ensures written == written + AccountNodes(namespace, {})
  {
    NoAccounts(namespace, usedBy);
    ElementsOfNone(accounts);
  }

  /** One more account of a binding. */
  lemma BindStep(
    namespace: string, usedBy: Users, source: string, accounts: seq<string>, k: nat,
    edges: set<Edge>, written: set<Node>, more: set<string>, another: set<string>)
    requires k < |accounts|
    ensures edges + AllAccountEdges(namespace, usedBy, more) + BindEdges(namespace, source, accounts[..k])
            + AllAccountEdges(namespace, usedBy, another)
            + {Edge(source, AccountNode(namespace, accounts[k]).id, "binds")}
            == edges + AllAccountEdges(namespace, usedBy, more + another)
                + BindEdges(namespace, source, accounts[..k + 1])
    ensures written + AccountNodes(namespace, more) + AccountNodes(namespace, another)
              == written + AccountNodes(namespace, more + another)
  {
    hide Stored, NodeId, AccountNode, Elements, AllAccountEdges, AccountNodes, AccountEdges, BindEdges;
    AccountsUnion(namespace, usedBy, more, another);
    BindMore(namespace, source, accounts, k);
    ElementsMore(accounts, k);
    UnionInterleave(edges, AllAccountEdges(namespace, usedBy, more), BindEdges(namespace, source, accounts[..k]),
                    AllAccountEdges(namespace, usedBy, another),
                    {Edge(source, AccountNode(namespace, accounts[k]).id, "binds")});
    UnionAssoc(written, AccountNodes(namespace, more), AccountNodes(namespace, another));
  }

  method AddBinding(
    g: Builder, namespace: string, usedBy: Users, b: AccountBinding)
    returns (ghost more: set<string>)
    requires g.Valid() && UsersDrawn(g.nodeIds, usedBy)
    modifies g`nodes, g`nodeIds, g`written, g`edges, g`edgeSet
    ensures g.Valid() && old(g.nodeIds) <= g.nodeIds
    ensures forall before :: old(g.Good(before)) ==> g.Good(before)
    ensures g.nodeIds == old(g.nodeIds) + RoleIds(namespace, b) + AccountIds(namespace, Elements(b.accounts))
    ensures more == FreshNames(namespace, old(g.nodeIds) + {BindingNode(b).id}, Elements(b.accounts))
    ensures g.edgeSet == old(g.edgeSet) + AllAccountEdges(namespace, usedBy, more) + RoleEdges(namespace, b)
    ensures g.written == old(g.written) + AccountNodes(namespace, more) + RoleNodes(namespace, b)
  {
    hide Builder.Valid, Builder.Good, NoAllows, Stored, NodeId, UsersDrawn, Elements;
    hide AllAccountEdges, AccountNodes, AccountEdges, BindEdges;
    ghost var ids0, edges0, written0 := g.nodeIds, g.edgeSet, g.written;
    var binding, role := BindingNode(b), RoleNode(namespace, b.roleRef);
    g.AddNode(binding);
    UsersStillDrawn(ids0, g.nodeIds, usedBy);
    more := BindAccounts(g, namespace, usedBy, binding.id, b.accounts);
    g.AddNode(role);
    g.AddEdge(binding.id, role.id, "grants");
    UnionInterleave(ids0, {binding.id}, AccountIds(namespace, Elements(b.accounts)), {role.id}, {});
    UnionAssoc(edges0 + AllAccountEdges(namespace, usedBy, more), BindEdges(namespace, binding.id, b.accounts),
        {Edge(binding.id, role.id, "grants")});
  }

  // All bindings

  ghost function AllRoleEdges(namespace: string, bindings: seq<AccountBinding>, n: nat): (edges: set<Edge>)
    requires n <= |bindings|
    ensures NoAllows(edges)
  {
    if n == 0 then {} else AllRoleEdges(namespace, bindings, n - 1) + RoleEdges(namespace, bindings[n - 1])
  }

  ghost function AllRoleNodes(namespace: string, bindings: seq<AccountBinding>, n: nat): set<Node>
    requires n <= |bindings|
  {
    if n == 0 then {} else AllRoleNodes(namespace, bindings, n - 1) + RoleNodes(namespace, bindings[n - 1])
  }

  ghost function AllRoleIds(namespace: string, bindings: seq<AccountBinding>, n: nat): set<string>
    requires n <= |bindings|
  {
    if n == 0 then {} else AllRoleIds(namespace, bindings, n - 1) + RoleIds(namespace, bindings[n - 1])
  }

  /** The accounts some binding names. */
  ghost function BoundAccounts(bindings: seq<AccountBinding>, n: nat): set<string>
    requires n <= |bindings|
  {
    if n == 0 then {} else BoundAccounts(bindings, n - 1) + Elements(bindings[n - 1].accounts)
  }

  /** What is taken once the first n bindings are drawn. */
  ghost function TakenIds(namespace: string, ids: set<string>, bindings: seq<AccountBinding>, n: nat): set<string>
    requires n <= |bindings|
  {
    ids + AllRoleIds(namespace, bindings, n) + AccountIds(namespace, BoundAccounts(bindings, n))
  }

  /** The accounts drawn with the first n bindings, where `ids` are taken before. */
  ghost function BoundFresh(namespace: string, ids: set<string>, bindings: seq<AccountBinding>, n: nat): set<string>
    requires n <= |bindings|
  {
    if n == 0 then {}
    else
      var taken := TakenIds(namespace, ids, bindings, n - 1) + {BindingNode(bindings[n - 1]).id};
      BoundFresh(namespace, ids, bindings, n - 1) + FreshNames(namespace, taken, Elements(bindings[n - 1].accounts))
  }

  lemma TakenMore(namespace: string, ids: set<string>, bindings: seq<AccountBinding>, n: nat)
    requires n < |bindings|
    ensures TakenIds(namespace, ids, bindings, n + 1)
            == TakenIds(namespace, ids, bindings, n) + RoleIds(namespace, bindings[n])
               + AccountIds(namespace, Elements(bindings[n].accounts))
    ensures BoundFresh(namespace, ids, bindings, n + 1)
            == BoundFresh(namespace, ids, bindings, n)
               + FreshNames(namespace, TakenIds(namespace, ids, bindings, n) + {BindingNode(bindings[n]).id},
                            Elements(bindings[n].accounts))
  {
    hide AccountNode, RoleIds, Elements, FreshNames;
  }

  method AddBindings(
    g: Builder, namespace: string, usedBy: Users, bindings: seq<AccountBinding>) returns (ghost more: set<string>)
    requires g.Valid() && UsersDrawn(g.nodeIds, usedBy)
    modifies g`nodes, g`nodeIds, g`written, g`edges, g`edgeSet
    ensures g.Valid() && old(g.nodeIds) <= g.nodeIds
    ensures forall before :: old(g.Good(before)) ==> g.Good(before)
    ensures more == BoundFresh(namespace, old(g.nodeIds), bindings, |bindings|)
    ensures g.edgeSet == old(g.edgeSet) + AllAccountEdges(namespace, usedBy, more)
              + AllRoleEdges(namespace, bindings, |bindings|)
    ensures g.written == old(g.written) + AccountNodes(namespace, more) + AllRoleNodes(namespace, bindings, |bindings|)
  {
    ghost var ids0, edges0, written0 := g.nodeIds, g.edgeSet, g.written;
    more := {};
    NoBindingsYet(namespace, usedBy, bindings, ids0, edges0, written0);
    hide Builder.Valid, Builder.Good, NoAllows, UsersDrawn, Elements, TakenIds, AllRoleEdges, AllRoleNodes, BindingNode;
    hide BoundFresh;
    hide AllAccountEdges, AccountNodes, RoleEdges, RoleNodes, RoleIds, FreshNames, AccountIds;
    for k := 0 to |bindings|
      invariant g.Valid() && ids0 <= g.nodeIds && forall before :: old(g.Good(before)) ==> g.Good(before)
      invariant g.nodeIds == TakenIds(namespace, ids0, bindings, k)
      invariant more == BoundFresh(namespace, ids0, bindings, k)
      invariant g.edgeSet == edges0 + AllAccountEdges(namespace, usedBy, more) + AllRoleEdges(namespace, bindings, k)
      invariant g.written == written0 + AccountNodes(namespace, more) + AllRoleNodes(namespace, bindings, k)
    {
      UsersStillDrawn(ids0, g.nodeIds, usedBy);
      ghost var another := AddBinding(g, namespace, usedBy, bindings[k]);
      BindingStep(namespace, usedBy, bindings, k, edges0, written0, more, another);
      TakenMore(namespace, ids0, bindings, k);
      more := more + another;
    }
  }

  lemma NoBindingsYet(
    namespace: string, usedBy: Users, bindings: seq<AccountBinding>,
    ids: set<string>, edges: set<Edge>, written: set<Node>)
    ensures ids == TakenIds(namespace, ids, bindings, 0) && BoundFresh(namespace, ids, bindings, 0) == {}
    ensures edges == edges + AllAccountEdges(namespace, usedBy, {}) + AllRoleEdges(namespace, bindings, 0)
    ensures written == written + AccountNodes(namespace, {}) + AllRoleNodes(namespace, bindings, 0)
  {
    NoAccounts(namespace, usedBy);
  }

  /** One more binding. */
  lemma BindingStep(
    namespace: string, usedBy: Users, bindings: seq<AccountBinding>, k: nat,
    edges: set<Edge>, written: set<Node>, more: set<string>, another: set<string>)
    requires k < |bindings|
    ensures edges + AllAccountEdges(namespace, usedBy, more) + AllRoleEdges(namespace, bindings, k)
            + AllAccountEdges(namespace, usedBy, another) + RoleEdges(namespace, bindings[k])
            == edges + AllAccountEdges(namespace, usedBy, more + another) + AllRoleEdges(namespace, bindings, k + 1)
    ensures written + AccountNodes(namespace, more) + AllRoleNodes(namespace, bindings, k)
            + AccountNodes(namespace, another) + RoleNodes(namespace, bindings[k])
            == written + AccountNodes(namespace, more + another) + AllRoleNodes(namespace, bindings, k + 1)
  {
    hide NoAllows, Elements, AllAccountEdges, AccountNodes, RoleEdges, RoleNodes;
    AccountsUnion(namespace, usedBy, more, another);
    UnionInterleave(edges, AllAccountEdges(namespace, usedBy, more), AllRoleEdges(namespace, bindings, k),
                    AllAccountEdges(namespace, usedBy, another), RoleEdges(namespace, bindings[k]));
    UnionInterleave(written, AccountNodes(namespace, more), AllRoleNodes(namespace, bindings, k),
                    AccountNodes(namespace, another), RoleNodes(namespace, bindings[k]));
  }

  /** The accounts to draw: those the workloads run as, but "default" only if something binds it. */
  ghost function WantedAccounts(usedBy: Users, bindings: seq<AccountBinding>): set<string> {
    usedBy.Keys - {DEFAULT_ACCOUNT} + BoundAccounts(bindings, |bindings|)
  }

  /** Those of them that are drawn, where `ids` are taken before the step: whether one is does not depend
      on the order in which the map is visited. */
  ghost function DrawnAccounts(
    namespace: string, ids: set<string>, usedBy: Users, bindings: seq<AccountBinding>): set<string>
  {
    var own := usedBy.Keys - {DEFAULT_ACCOUNT};
    FreshNames(namespace, ids, own) + BoundFresh(namespace, ids + AccountIds(namespace, own), bindings, |bindings|)
  }

  /** What the step draws once `drawn` is known. */
  ghost function RbacEdges(
    namespace: string, usedBy: Users, bindings: seq<AccountBinding>, drawn: set<string>): (edges: set<Edge>)
    ensures NoAllows(edges)
  {
    AllAccountEdges(namespace, usedBy, drawn) + AllRoleEdges(namespace, bindings, |bindings|)
  }

  ghost function RbacNodes(namespace: string, bindings: seq<AccountBinding>, drawn: set<string>): set<Node> {
    AccountNodes(namespace, drawn) + AllRoleNodes(namespace, bindings, |bindings|)
  }

  method AddServiceAccounts(g: Builder, namespace: string, usedBy: Users, bindings: seq<AccountBinding>)
    returns (ghost drawn: set<string>)
    requires g.Valid() && UsersDrawn(g.nodeIds, usedBy)
    modifies g`nodes, g`nodeIds, g`written, g`edges, g`edgeSet
    ensures g.Valid() && old(g.nodeIds) <= g.nodeIds
    ensures forall before :: old(g.Good(before)) ==> g.Good(before)
    ensures drawn == DrawnAccounts(namespace, old(g.nodeIds), usedBy, bindings)
    ensures g.edgeSet == old(g.edgeSet) + RbacEdges(namespace, usedBy, bindings, drawn)
    ensures g.written == old(g.written) + RbacNodes(namespace, bindings, drawn)
  {
    hide Builder.Valid, Builder.Good, NoAllows, UsersDrawn, Elements;
    hide AllAccountEdges, AccountNodes, AllRoleEdges, AllRoleNodes, BoundFresh, FreshNames, AccountIds;
    ghost var ids0, edges0, written0 := g.nodeIds, g.edgeSet, g.written;
    var names := Enumerate(usedBy.Keys - {DEFAULT_ACCOUNT});
    ghost var own := AddAccounts(g, namespace, usedBy, names);
    UsersStillDrawn(ids0, g.nodeIds, usedBy);
    ghost var more := AddBindings(g, namespace, usedBy, bindings);
    drawn := own + more;
    AccountsUnion(namespace, usedBy, own, more);
    UnionAssoc4(edges0, AllAccountEdges(namespace, usedBy, own), AllAccountEdges(namespace, usedBy, more),
        AllRoleEdges(namespace, bindings, |bindings|));
    UnionAssoc4(written0, AccountNodes(namespace, own), AccountNodes(namespace, more),
        AllRoleNodes(namespace, bindings, |bindings|));
  }

  // What it means

  /** The i-th binding names the account while its ID is free of the bindings and roles drawn by then. */
  ghost predicate BoundWhileFree(namespace: string, bindings: seq<AccountBinding>, i: nat, name: string)
    requires i < |bindings|
  {
    && name in bindings[i].accounts
    && AccountNode(namespace, name).id !in AllRoleIds(namespace, bindings, i) + {BindingNode(bindings[i]).id}
  }

  lemma {:induction false} RoleIdsMore(namespace: string, bindings: seq<AccountBinding>, m: nat, n: nat)
    requires m < n <= |bindings|
    ensures AllRoleIds(namespace, bindings, m) + {BindingNode(bindings[m]).id} <= AllRoleIds(namespace, bindings, n)
  {
    hide BindingNode, RoleNode;
    if m < n - 1 {
      RoleIdsMore(namespace, bindings, m, n - 1);
    }
  }

  lemma {:induction false} BoundAccountsMeaning(bindings: seq<AccountBinding>, n: nat, name: string)
    requires n <= |bindings|
    ensures name in BoundAccounts(bindings, n) <==> exists i :: 0 <= i < n && name in bindings[i].accounts
  {
    if n > 0 {
      BoundAccountsMeaning(bindings, n - 1, name);
    }
  }

  lemma {:induction false} BoundFreshMeaning(
    namespace: string, ids: set<string>, bindings: seq<AccountBinding>, n: nat, name: string)
    requires n <= |bindings|
    ensures name in BoundFresh(namespace, ids, bindings, n) <==>
            && AccountNode(namespace, name).id !in ids
            && exists i: nat :: i < n && BoundWhileFree(namespace, bindings, i, name)
  {
    hide AccountNode, BindingNode, AllRoleIds;
    if n > 0 {
      BoundFreshMeaning(namespace, ids, bindings, n - 1, name);
      var id := AccountNode(namespace, name).id;
      BoundAccountsMeaning(bindings, n - 1, name);
      TakenMeaning(namespace, ids, bindings, n - 1, name);
      hide TakenIds, BoundAccounts;
      var taken := TakenIds(namespace, ids, bindings, n - 1);
      if BoundWhileFree(namespace, bindings, n - 1, name) && id in taken && id !in ids {
        var i: nat :| i < n - 1 && name in bindings[i].accounts;
        RoleIdsMore(namespace, bindings, i, n - 1);
        assert BoundWhileFree(namespace, bindings, i, name);
      }
    }
  }

  lemma TakenMeaning(namespace: string, ids: set<string>, bindings: seq<AccountBinding>, n: nat, name: string)
    requires n <= |bindings|
    ensures var id := AccountNode(namespace, name).id;
            id in TakenIds(namespace, ids, bindings, n)
            <==> id in ids || id in AllRoleIds(namespace, bindings, n) || name in BoundAccounts(bindings, n)
  {
    hide AllRoleIds, BoundAccounts;
    AccountIdsMeaning(namespace, BoundAccounts(bindings, n), name);
  }

  lemma AccountIdsMeaning(namespace: string, names: set<string>, name: string)
    ensures AccountNode(namespace, name).id in AccountIds(namespace, names) <==> name in names
  {
    if AccountNode(namespace, name).id in AccountIds(namespace, names) {
      var other :| other in names && AccountNode(namespace, other).id == AccountNode(namespace, name).id;
      AccountIdInjective(namespace, name, other);
    }
  }

  /** An account is drawn exactly if no earlier step took its ID and a workload runs as it (unless it is
      "default"), or some binding names it before a binding or role takes its ID. */
  lemma DrawnAccountsMeaning(
    namespace: string, ids: set<string>, usedBy: Users, bindings: seq<AccountBinding>, name: string)
    ensures name in DrawnAccounts(namespace, ids, usedBy, bindings) <==>
            && AccountNode(namespace, name).id !in ids
            && ((name in usedBy && name != DEFAULT_ACCOUNT)
                || exists i: nat :: i < |bindings| && BoundWhileFree(namespace, bindings, i, name))
  {
    hide AccountNode, BoundFresh, BoundWhileFree, AccountIds;
    var own := usedBy.Keys - {DEFAULT_ACCOUNT};
    AccountIdsMeaning(namespace, own, name);
    BoundFreshMeaning(namespace, ids + AccountIds(namespace, own), bindings, |bindings|, name);
  }

  /** If nothing else takes the ID of a wanted account, exactly the wanted accounts are drawn. */
  lemma WantedAccountsAreDrawn(namespace: string, ids: set<string>, usedBy: Users, bindings: seq<AccountBinding>)
    requires forall name :: name in WantedAccounts(usedBy, bindings) ==>
               AccountNode(namespace, name).id !in ids + AllRoleIds(namespace, bindings, |bindings|)
    ensures DrawnAccounts(namespace, ids, usedBy, bindings) == WantedAccounts(usedBy, bindings)
  {
    hide AccountNode, BindingNode, DrawnAccounts, AllRoleIds, BoundAccounts;
    var wanted := WantedAccounts(usedBy, bindings);
    forall name ensures name in DrawnAccounts(namespace, ids, usedBy, bindings) <==> name in wanted {
      DrawnAccountsMeaning(namespace, ids, usedBy, bindings, name);
      BoundAccountsMeaning(bindings, |bindings|, name);
      if i: nat :| i < |bindings| && name in bindings[i].accounts {
        assert name in wanted && AccountNode(namespace, name).id !in ids + AllRoleIds(namespace, bindings, |bindings|);
        RoleIdsMore(namespace, bindings, i, |bindings|);
        assert BoundWhileFree(namespace, bindings, i, name);
      }
    }
  }

  /** A "runs-as" edge leads from exactly the owners that run as a drawn account. */
  lemma RunsAsIsExact(
    namespace: string, owners: seq<Owner>, usedBy: Users, drawn: set<string>, id: string, name: string)
    requires UsersAre(usedBy, owners, |owners|)
    ensures Edge(id, AccountNode(namespace, name).id, "runs-as") in AllAccountEdges(namespace, usedBy, drawn)
            <==> name in drawn && exists i :: 0 <= i < |owners| && RunsAs(owners[i], name) && owners[i].node.id == id
  {
    forall o: Owner ensures RunsAs(o, name) <==> AccountOf(o) == name {
      RunsAsMeaning(o, name);
    }
    hide AccountNode, AccountOf, RunsAs, UsersOf;
    var e := Edge(id, AccountNode(namespace, name).id, "runs-as");
    UsersOfMeaning(owners, name, |owners|, id);
    if e in AllAccountEdges(namespace, usedBy, drawn) {
      var other :| other in drawn && e in AccountEdges(namespace, usedBy, other);
      AccountIdInjective(namespace, name, other);
    }
    if name in drawn && id in UsersFor(usedBy, name) {
      assert e in AccountEdges(namespace, usedBy, name);
    }
  }

  ghost function AccountsIn(owners: seq<Owner>): set<string> {
    set o | o in owners :: AccountOf(o)
  }

  /** The accounts the owners run as, with their users. */
  ghost function UsersBy(owners: seq<Owner>): Users {
    map account | account in AccountsIn(owners) :: UsersOf(owners, account, |owners|)
  }

  lemma UsersAreUsersBy(owners: seq<Owner>, usedBy: Users)
    requires UsersAre(usedBy, owners, |owners|)
    ensures usedBy == UsersBy(owners) && usedBy.Keys == AccountsIn(owners)
  {
    hide AccountOf, UsersOf;
    forall account ensures account in usedBy <==> account in AccountsIn(owners) {
      var users := UsersOf(owners, account, |owners|);
      if account in usedBy {
        UsersOfMeaning(owners, account, |owners|, users[0]);
      }
      if o :| o in owners && AccountOf(o) == account {
        UsersOfMeaning(owners, account, |owners|, o.node.id);
      }
    }
  }

  lemma UsersAreDrawn(ids: set<string>, owners: NamespaceOwners, usedBy: Users)
    requires OwnersDrawn(ids, owners) && UsersAre(usedBy, owners.owners, |owners.owners|)
    ensures UsersDrawn(ids, usedBy)
  {
    hide AccountOf, UsersOf;
    forall account, id | id in UsersFor(usedBy, account) ensures id in ids {
      UsersOfMeaning(owners.owners, account, |owners.owners|, id);
    }
  }
}
