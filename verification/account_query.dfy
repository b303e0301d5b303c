/** Eager loading of an account's edges: the loaders are hash joins over maps that are
    filled in loops, and they write into the edges of account objects. */
module AccountQuery {
  import opened Values

  class Group {
    const id: int
    constructor (id: int)
      ensures this.id == id
    {
      this.id := id;
    }
  }

  class Proxy {
    const id: int
    constructor (id: int)
      ensures this.id == id
    {
      this.id := id;
    }
  }

  class Account {
    const id: int
    const proxyId: Option<int>
    const parentId: Option<int>
    var groups: seq<Group>
    var proxy: Proxy?
    var children: seq<Account>

    constructor (id: int, proxyId: Option<int>, parentId: Option<int>)
      ensures this.id == id && this.proxyId == proxyId && this.parentId == parentId
      ensures groups == [] && proxy == null && children == []
    {
      this.id, this.proxyId, this.parentId := id, proxyId, parentId;
      groups, proxy, children := [], null, [];
    }
  }

  /** The accounts of one query: no object twice, no identifier twice. */
  ghost predicate Distinct(nodes: seq<Account>) {
    forall i, j :: 0 <= i < j < |nodes| ==> nodes[i] != nodes[j] && nodes[i].id != nodes[j].id
  }

  ghost predicate HasId(nodes: seq<Account>, id: int) {
    exists i :: 0 <= i < |nodes| && nodes[i].id == id
  }

  /** `byID` indexes `nodes`. */
  ghost predicate Indexes(byID: map<int, Account>, nodes: seq<Account>) {
    && (forall i :: 0 <= i < |nodes| ==> nodes[i].id in byID && byID[nodes[i].id] == nodes[i])
    && (forall id :: id in byID ==> byID[id] in nodes && byID[id].id == id)
  }

  /** How a loader ends. */
  datatype Loaded =
    | Fine
    | QueryFailed
    | UnexpectedKey(key: int)
    | MissingKey(child: int)

  // ----- many to many: groups

  /** The group identifiers of the join rows, each at its first appearance. */
  function FirstSeen(rows: seq<(int, int)>): (r: seq<int>)
    ensures forall k :: 0 <= k < |rows| ==> rows[k].1 in r
  {
    if rows == [] then []
    else
      var before := FirstSeen(rows[..|rows| - 1]);
      var id := rows[|rows| - 1].1;
      if id in before then before else before + [id]
  }

  predicate Joined(rows: seq<(int, int)>, account: int, group: int) {
    (account, group) in rows
  }

  /** The groups among `found` that the rows join to `account`, in order. */
  ghost function Pick(found: seq<Group>, rows: seq<(int, int)>, account: int): seq<Group> {
    if found == [] then []
    else
      var before := Pick(found[..|found| - 1], rows, account);
      var g := found[|found| - 1];
      if Joined(rows, account, g.id) then before + [g] else before
  }

  ghost predicate BuiltFor(found: seq<Group>, rows: seq<(int, int)>) {
    |found| == |FirstSeen(rows)| && forall k :: 0 <= k < |found| ==> found[k].id == FirstSeen(rows)[k]
  }

  /** `nids` has the groups of the rows, and for each the accounts joined to it. */
  ghost predicate Memberships(nodes: seq<Account>, rows: seq<(int, int)>, nids: map<int, set<Account>>) {
    && (forall g :: g in nids <==> g in FirstSeen(rows))
    && (forall g, a :: g in nids && a in nids[g] ==> a in nodes && Joined(rows, a.id, g))
    && (forall g, a :: g in nids && a in nodes && Joined(rows, a.id, g) ==> a in nids[g])
  }

  /** The scan of the join rows: one object for each group, and for each group the
      accounts it belongs to. */
  method ScanRows(nodes: seq<Account>, byID: map<int, Account>, rows: seq<(int, int)>)
    returns (found: seq<Group>, nids: map<int, set<Account>>)
    requires Indexes(byID, nodes) && forall r :: r in rows ==> r.0 in byID
    ensures BuiltFor(found, rows)
    ensures forall g :: g in found ==> fresh(g)
    ensures Memberships(nodes, rows, nids)
  {
    found, nids := [], map[];
    for k := 0 to |rows|
      invariant BuiltFor(found, rows[..k])
      invariant forall g :: g in found ==> fresh(g)
      invariant Memberships(nodes, rows[..k], nids)
    {
      var (out, id) := rows[k];
      assert rows[..k + 1] == rows[..k] + [(out, id)];
      assert rows[k] in rows;
      SeenNext(rows[..k], out, id);
      MembershipsNext(nodes, byID, rows[..k], nids, out, id);
      if id !in nids {
        var g := new Group(id);
        nids := nids[id := {byID[out]}];
        found := found + [g];
      } else {
        nids := nids[id := nids[id] + {byID[out]}];
      }
    }
    assert rows[..|rows|] == rows;
  }

  lemma SeenNext(rows: seq<(int, int)>, out: int, id: int)
    ensures FirstSeen(rows + [(out, id)]) == if id in FirstSeen(rows) then FirstSeen(rows) else FirstSeen(rows) + [id]
  {
    assert (rows + [(out, id)])[..|rows|] == rows;
  }

  lemma MembershipsNext(nodes: seq<Account>, byID: map<int, Account>, rows: seq<(int, int)>,
                        nids: map<int, set<Account>>, out: int, id: int)
    requires Indexes(byID, nodes) && out in byID && Memberships(nodes, rows, nids)
    ensures Memberships(nodes, rows + [(out, id)], if id in nids then nids[id := nids[id] + {byID[out]}] else nids[id := {byID[out]}])
  {
    assert (rows + [(out, id)])[..|rows|] == rows;
    NewRow(nodes, byID, rows, out, id);
  }

  /** Which memberships one more row adds. */
  lemma NewRow(nodes: seq<Account>, byID: map<int, Account>, rows: seq<(int, int)>, out: int, id: int)
    requires Indexes(byID, nodes) && out in byID
    ensures forall a, g :: a in nodes ==>
              (Joined(rows + [(out, id)], a.id, g) <==> Joined(rows, a.id, g) || (a == byID[out] && g == id))
    ensures id !in FirstSeen(rows) ==> forall a :: a in nodes ==> !Joined(rows, a.id, id)
  {
    forall a, g | a in nodes
      ensures Joined(rows + [(out, id)], a.id, g) <==> Joined(rows, a.id, g) || (a == byID[out] && g == id)
    {
      var i :| 0 <= i < |nodes| && nodes[i] == a;
      assert byID[a.id] == a;
    }
    forall a | a in nodes && Joined(rows, a.id, id) ensures id in FirstSeen(rows) {
      JoinedIsSeen(rows, a.id, id);
    }
  }

  lemma JoinedIsSeen(rows: seq<(int, int)>, account: int, group: int)
    requires Joined(rows, account, group)
    ensures group in FirstSeen(rows)
  {
    var k :| 0 <= k < |rows| && rows[k] == (account, group);
    assert rows[k].1 in FirstSeen(rows);
  }

  /** Appending one group to every account of a set, in whatever order the set is
      walked. */
  method AssignToAll(nodes: seq<Account>, members: set<Account>, g: Group)
    requires Distinct(nodes) && forall a :: a in members ==> a in nodes
    modifies nodes`groups
    ensures forall a :: a in nodes ==> a.groups == old(a.groups) + if a in members then [g] else []
  {
    var left := members;
    while left != {}
      invariant left <= members
      invariant forall a :: a in nodes ==> a.groups == old(a.groups) + if a in members && a !in left then [g] else []
      decreases left
    {
      ghost var some := SomeElement(left);
      var a :| a in left;
      a.groups := a.groups + [g];
      left := left - {a};
    }
  }

  method IndexAccounts(nodes: seq<Account>) returns (byID: map<int, Account>)
    requires Distinct(nodes)
    modifies nodes`groups
    ensures Indexes(byID, nodes)
    ensures forall a :: a in nodes ==> a.groups == []
  {
    byID := map[];
    for i := 0 to |nodes|
      invariant Indexes(byID, nodes[..i])
      invariant forall j :: 0 <= j < i ==> nodes[j].groups == []
    {
      byID := byID[nodes[i].id := nodes[i]];
      nodes[i].groups := [];
    }
    assert nodes[..|nodes|] == nodes;
  }

  lemma MembersOf(nodes: seq<Account>, rows: seq<(int, int)>, nids: map<int, set<Account>>, id: int)
    requires Memberships(nodes, rows, nids) && id in nids
    ensures forall a :: a in nids[id] ==> a in nodes
    ensures forall a :: a in nodes ==> (a in nids[id] <==> Joined(rows, a.id, id))
  {
  }

  lemma PickNext(found: seq<Group>, rows: seq<(int, int)>, k: nat)
    requires k < |found|
    ensures forall account ::
              Pick(found[..k + 1], rows, account) ==
              Pick(found[..k], rows, account) + if Joined(rows, account, found[k].id) then [found[k]] else []
  {
    assert found[..k + 1][..k] == found[..k];
  }

  /** `loadGroups`. `answer` is what the join query returns, if it succeeds: (account,
      group) pairs in any order, filtered by the accounts' identifiers. */
  method LoadGroups(nodes: seq<Account>, answer: Option<seq<(int, int)>>) returns (r: Loaded, found: seq<Group>)
    requires Distinct(nodes) && (answer.Some? ==> forall row :: row in answer.value ==> HasId(nodes, row.0))
    modifies nodes`groups
    ensures r == if answer.None? then QueryFailed else Fine
    ensures answer.None? ==> forall a :: a in nodes ==> a.groups == []
    ensures answer.Some? ==>
              && BuiltFor(found, answer.value) && (forall g :: g in found ==> fresh(g))
              && forall a :: a in nodes ==> a.groups == Pick(found, answer.value, a.id)
  {
    var byID := IndexAccounts(nodes);
    if answer.None? {
      return QueryFailed, [];
    }
    var nids;
    found, nids := ScanRows(nodes, byID, answer.value);
    for k := 0 to |found|
      invariant forall a :: a in nodes ==> a.groups == Pick(found[..k], answer.value, a.id)
    {
      var id := found[k].id;
      if id !in nids {
        return UnexpectedKey(id), found;
      }
      PickNext(found, answer.value, k);
      MembersOf(nodes, answer.value, nids, id);
      AssignToAll(nodes, nids[id], found[k]);
    }
    assert found[..|found|] == found;
    r := Fine;
  }

  // ----- what the specification of the group loader means

  ghost predicate Mentions(rows: seq<(int, int)>, group: int) {
    exists k :: 0 <= k < |rows| && rows[k].1 == group
  }

  /** The row that mentions a group first. */
  ghost function FirstIndex(rows: seq<(int, int)>, group: int): (i: nat)
    requires Mentions(rows, group)
    ensures i < |rows| && rows[i].1 == group && forall k :: 0 <= k < i ==> rows[k].1 != group
  {
    if rows[0].1 == group then 0
    else
      assert Mentions(rows[1..], group) by {
        var k :| 0 <= k < |rows| && rows[k].1 == group;
        assert rows[1..][k - 1].1 == group;
      }
      var i := FirstIndex(rows[1..], group);
      assert forall k :: 0 < k < i + 1 ==> rows[k] == rows[1..][k - 1];
      i + 1
  }

  /** Every group the rows mention is listed once, and nothing else is. */
  lemma {:induction false} FirstSeenOnce(rows: seq<(int, int)>)
    ensures forall g :: g in FirstSeen(rows) <==> Mentions(rows, g)
    ensures forall i, j :: 0 <= i < j < |FirstSeen(rows)| ==> FirstSeen(rows)[i] != FirstSeen(rows)[j]
  {
    if rows != [] {
      var front := rows[..|rows| - 1];
      FirstSeenOnce(front);
      forall g ensures Mentions(rows, g) <==> Mentions(front, g) || g == rows[|rows| - 1].1 {
        if Mentions(front, g) {
          var k :| 0 <= k < |front| && front[k].1 == g;
          assert rows[k].1 == g;
        }
        if Mentions(rows, g) && g != rows[|rows| - 1].1 {
          var k :| 0 <= k < |rows| && rows[k].1 == g;
          assert front[k].1 == g;
        }
      }
    }
  }

  /** The groups come in the order in which the rows first mention them. */
  lemma {:induction false} FirstSeenInOrder(rows: seq<(int, int)>, i: nat, j: nat)
    requires i < j < |FirstSeen(rows)|
    ensures Mentions(rows, FirstSeen(rows)[i]) && Mentions(rows, FirstSeen(rows)[j])
    ensures FirstIndex(rows, FirstSeen(rows)[i]) < FirstIndex(rows, FirstSeen(rows)[j])
  {
    FirstSeenOnce(rows);
    var front := rows[..|rows| - 1];
    var seen := FirstSeen(front);
    FirstSeenOnce(front);
    assert FirstSeen(rows)[i] in FirstSeen(rows) && FirstSeen(rows)[j] in FirstSeen(rows);
    assert FirstSeen(rows)[i] == seen[i] && seen[i] in seen;
    SameFirstIndex(rows, FirstSeen(rows)[i]);
    if j < |seen| {
      FirstSeenInOrder(front, i, j);
      SameFirstIndex(rows, FirstSeen(rows)[j]);
    } else {
      assert !Mentions(front, FirstSeen(rows)[j]);
      NewAtTheEnd(rows, FirstSeen(rows)[j]);
    }
  }

  lemma NewAtTheEnd(rows: seq<(int, int)>, g: int)
    requires rows != [] && Mentions(rows, g) && !Mentions(rows[..|rows| - 1], g)
    ensures FirstIndex(rows, g) == |rows| - 1
  {
    assert forall k :: 0 <= k < |rows| - 1 ==> rows[k] == rows[..|rows| - 1][k];
  }

  /** A row at the end does not change where an earlier group was first mentioned. */
  lemma SameFirstIndex(rows: seq<(int, int)>, g: int)
    requires rows != [] && Mentions(rows, g) && Mentions(rows[..|rows| - 1], g)
    ensures FirstIndex(rows, g) < |rows| - 1
    ensures FirstIndex(rows, g) == FirstIndex(rows[..|rows| - 1], g)
  {
    var front := rows[..|rows| - 1];
    var a, b := FirstIndex(rows, g), FirstIndex(front, g);
    assert front[b] == rows[b] && b < |rows| - 1;
    assert !(b < a);
    assert a < |front| && front[a] == rows[a];
    assert !(a < b);
  }

  /** The hash join agrees with the naive one: an account's groups are exactly those a
      row joins to it, each of them once. */
  lemma {:induction false} PickIsTheJoin(found: seq<Group>, rows: seq<(int, int)>, account: int)
    requires BuiltFor(found, rows)
    ensures var groups := Pick(found, rows, account);
            && (forall i :: 0 <= i < |groups| ==> groups[i] in found && Joined(rows, account, groups[i].id))
            && (forall id :: Joined(rows, account, id) ==> exists i :: 0 <= i < |groups| && groups[i].id == id)
            && (forall i, j :: 0 <= i < j < |groups| ==> groups[i].id != groups[j].id)
  {
    FirstSeenOnce(rows);
    PickFilters(found, rows, account);
    forall id | Joined(rows, account, id)
      ensures exists i :: 0 <= i < |Pick(found, rows, account)| && Pick(found, rows, account)[i].id == id
    {
      JoinedIsSeen(rows, account, id);
      var i := Position(FirstSeen(rows), id);
      assert found[i] in found && found[i].id == id;
      var k := Position(Pick(found, rows, account), found[i]);
    }
  }

  lemma {:induction false} PickFilters(found: seq<Group>, rows: seq<(int, int)>, account: int)
    requires forall i, j :: 0 <= i < j < |found| ==> found[i].id != found[j].id
    ensures var groups := Pick(found, rows, account);
            && (forall i :: 0 <= i < |groups| ==> groups[i] in found && Joined(rows, account, groups[i].id))
            && (forall g :: g in found && Joined(rows, account, g.id) ==> g in groups)
            && (forall i, j :: 0 <= i < j < |groups| ==> groups[i].id != groups[j].id)
  {
    if found != [] {
      var front, last := found[..|found| - 1], found[|found| - 1];
      PickFilters(front, rows, account);
      assert found == front + [last];
      var before := Pick(front, rows, account);
      PickIsFound(front, rows, account);
      forall k | 0 <= k < |before| ensures before[k].id != last.id {
        assert before[k] in front;
        var i := Position(front, before[k]);
        assert found[i] == before[k];
      }
    }
  }

  /** An account's groups keep the order of the groups: what comes earlier in its list
      was mentioned earlier. */
  lemma {:induction false} PickKeepsOrder(found: seq<Group>, rows: seq<(int, int)>, account: int, i: nat, j: nat)
    returns (p: nat, q: nat)
    requires i < j < |Pick(found, rows, account)|
    ensures p < q < |found|
    ensures found[p] == Pick(found, rows, account)[i] && found[q] == Pick(found, rows, account)[j]
  {
    var front, last := found[..|found| - 1], found[|found| - 1];
    var before := Pick(front, rows, account);
    if j < |before| {
      p, q := PickKeepsOrder(front, rows, account, i, j);
    } else {
      PickIsFound(front, rows, account);
      p := Position(front, before[i]);
      q := |found| - 1;
    }
  }

  lemma {:induction false} PickIsFound(found: seq<Group>, rows: seq<(int, int)>, account: int)
    ensures forall i :: 0 <= i < |Pick(found, rows, account)| ==> Pick(found, rows, account)[i] in found
  {
    if found != [] {
      PickIsFound(found[..|found| - 1], rows, account);
      assert found == found[..|found| - 1] + [found[|found| - 1]];
    }
  }

  // ----- many to one: the proxy

  /** One (account, key) pair for each account whose foreign key is not null. */
  ghost function KeyRows(nodes: seq<Account>): (rows: seq<(int, int)>)
  {
    if nodes == [] then []
    else
      var last := nodes[|nodes| - 1];
      KeyRows(nodes[..|nodes| - 1]) + if last.proxyId.Some? then [(last.id, last.proxyId.value)] else []
  }

  lemma KeyRowsNext(nodes: seq<Account>, i: nat)
    requires i < |nodes|
    ensures var rows, key := KeyRows(nodes[..i]), nodes[i].proxyId;
            && KeyRows(nodes[..i + 1]) == rows + (if key.Some? then [(nodes[i].id, key.value)] else [])
            && FirstSeen(KeyRows(nodes[..i + 1])) ==
               FirstSeen(rows) + if key.Some? && key.value !in FirstSeen(rows) then [key.value] else []
  {
    assert nodes[..i + 1][..i] == nodes[..i];
    var rows := KeyRows(nodes[..i]);
    if nodes[i].proxyId.Some? {
      assert (rows + [(nodes[i].id, nodes[i].proxyId.value)])[..|rows|] == rows;
    } else {
      assert rows + [] == rows;
    }
  }

  /** The accounts whose key is `key`. */
  ghost function Members(nodes: seq<Account>, key: int): (r: seq<Account>)
  {
    if nodes == [] then []
    else
      var last := nodes[|nodes| - 1];
      Members(nodes[..|nodes| - 1], key) + if last.proxyId == Some(key) then [last] else []
  }

  lemma {:induction false} MembersHaveTheKey(nodes: seq<Account>, key: int)
    ensures forall i :: 0 <= i < |Members(nodes, key)| ==>
              Members(nodes, key)[i] in nodes && Members(nodes, key)[i].proxyId == Some(key)
    ensures forall a :: a in nodes && a.proxyId == Some(key) ==> a in Members(nodes, key)
  {
    if nodes != [] {
      MembersHaveTheKey(nodes[..|nodes| - 1], key);
      assert nodes == nodes[..|nodes| - 1] + [nodes[|nodes| - 1]];
    }
  }

  /** `nodeids` groups the accounts by their key. */
  ghost predicate Grouped(nodes: seq<Account>, nodeids: map<int, seq<Account>>) {
    forall k :: Members(nodes, k) == if k in nodeids then nodeids[k] else []
  }

  /** How many of the neighbours come before the first that was not asked for. */
  ghost function Expected(ids: seq<int>, found: seq<Proxy>): (n: nat)
    ensures n <= |found|
    ensures forall k :: 0 <= k < n ==> found[k].id in ids
    ensures n < |found| ==> found[n].id !in ids
  {
    if found == [] || found[0].id !in ids then 0 else 1 + Expected(ids, found[1..])
  }

  /** The last neighbour with an identifier. */
  ghost function LastWith(found: seq<Proxy>, key: Option<int>, otherwise: Proxy?): Proxy? {
    if found == [] || key.None? then otherwise
    else if found[|found| - 1].id == key.value then found[|found| - 1]
    else LastWith(found[..|found| - 1], key, otherwise)
  }

  /** The map after one more account. */
  function WithAccount(nodeids: map<int, seq<Account>>, key: int, a: Account): (r: map<int, seq<Account>>)
    ensures forall k :: k in r <==> k in nodeids || k == key
    ensures forall k :: k in r && k != key ==> r[k] == nodeids[k]
    ensures r[key] == (if key in nodeids then nodeids[key] else []) + [a]
  {
    nodeids[key := (if key in nodeids then nodeids[key] else []) + [a]]
  }

  lemma MembersNext(nodes: seq<Account>, i: nat, key: int)
    requires i < |nodes|
    ensures Members(nodes[..i + 1], key) ==
            Members(nodes[..i], key) + if nodes[i].proxyId == Some(key) then [nodes[i]] else []
  {
    assert nodes[..i + 1][..i] == nodes[..i];
  }

  lemma GroupedAt(nodes: seq<Account>, i: nat, nodeids: map<int, seq<Account>>, k: int)
    requires i < |nodes| && Members(nodes[..i], k) == if k in nodeids then nodeids[k] else []
    ensures var key := nodes[i].proxyId;
            var next := if key.Some? then WithAccount(nodeids, key.value, nodes[i]) else nodeids;
            Members(nodes[..i + 1], k) == if k in next then next[k] else []
  {
    MembersNext(nodes, i, k);
  }

  lemma GroupedNext(nodes: seq<Account>, i: nat, nodeids: map<int, seq<Account>>)
    requires i < |nodes| && Grouped(nodes[..i], nodeids)
    ensures Grouped(nodes[..i + 1],
                    if nodes[i].proxyId.Some? then WithAccount(nodeids, nodes[i].proxyId.value, nodes[i]) else nodeids)
  {
    var next := if nodes[i].proxyId.Some? then WithAccount(nodeids, nodes[i].proxyId.value, nodes[i]) else nodeids;
    forall k ensures Members(nodes[..i + 1], k) == if k in next then next[k] else [] {
      GroupedAt(nodes, i, nodeids, k);
    }
  }

  /** What the grouping is used for. */
  ghost predicate Holders(nodes: seq<Account>, nodeids: map<int, seq<Account>>) {
    && (forall k :: k in nodeids ==> forall i :: 0 <= i < |nodeids[k]| ==> nodeids[k][i] in nodes && nodeids[k][i].proxyId == Some(k))
    && (forall j :: 0 <= j < |nodes| && nodes[j].proxyId.Some? ==>
          nodes[j].proxyId.value in nodeids && nodes[j] in nodeids[nodes[j].proxyId.value])
  }

  lemma GroupedHolders(nodes: seq<Account>, nodeids: map<int, seq<Account>>)
    requires Grouped(nodes, nodeids)
    ensures Holders(nodes, nodeids)
  {
    forall k ensures k in nodeids ==> forall i :: 0 <= i < |nodeids[k]| ==> nodeids[k][i] in nodes && nodeids[k][i].proxyId == Some(k) {
      MembersHaveTheKey(nodes, k);
    }
    forall j | 0 <= j < |nodes| && nodes[j].proxyId.Some?
      ensures nodes[j].proxyId.value in nodeids && nodes[j] in nodeids[nodes[j].proxyId.value]
    {
      MembersHaveTheKey(nodes, nodes[j].proxyId.value);
    }
  }

  method GroupByKey(nodes: seq<Account>) returns (ids: seq<int>, nodeids: map<int, seq<Account>>)
    ensures ids == FirstSeen(KeyRows(nodes))
    ensures forall k :: k in nodeids <==> k in ids
    ensures Holders(nodes, nodeids)
  {
    ids, nodeids := [], map[];
    for i := 0 to |nodes|
      invariant ids == FirstSeen(KeyRows(nodes[..i]))
      invariant forall k :: k in nodeids <==> k in ids
      invariant Grouped(nodes[..i], nodeids)
    {
      KeyRowsNext(nodes, i);
      GroupedNext(nodes, i, nodeids);
      if nodes[i].proxyId.Some? {
        var fk := nodes[i].proxyId.value;
        if fk !in nodeids {
          ids := ids + [fk];
        }
        nodeids := WithAccount(nodeids, fk, nodes[i]);
      }
    }
    assert nodes[..|nodes|] == nodes;
    GroupedHolders(nodes, nodeids);
  }

  /** One neighbour goes to every account that holds its key. */
  method SetProxy(nodes: seq<Account>, nodeids: map<int, seq<Account>>, p: Proxy)
    requires Holders(nodes, nodeids) && p.id in nodeids
    modifies nodes`proxy
    ensures forall a :: a in nodes ==> a.proxy == if a.proxyId == Some(p.id) then p else old(a.proxy)
  {
    var members := nodeids[p.id];
    for i := 0 to |members|
      invariant forall a :: a in nodes ==> a.proxy == if a in members[..i] then p else old(a.proxy)
    {
      assert members[..i + 1] == members[..i] + [members[i]];
      members[i].proxy := p;
    }
    assert members[..|members|] == members;
  }

  /** What the loop over the neighbours answers. */
  ghost function ProxyAnswer(asked: seq<int>, found: seq<Proxy>): Loaded {
    var n := Expected(asked, found);
    if n == |found| then Fine else UnexpectedKey(found[n].id)
  }

  method AssignProxies(nodes: seq<Account>, asked: seq<int>, nodeids: map<int, seq<Account>>, found: seq<Proxy>)
    returns (r: Loaded)
    requires Holders(nodes, nodeids) && forall k :: k in nodeids <==> k in asked
    modifies nodes`proxy
    ensures r == ProxyAnswer(asked, found)
    ensures forall a :: a in nodes ==>
                          a.proxy == LastWith(found[..Expected(asked, found)], a.proxyId, old(a.proxy))
  {
    for k := 0 to |found|
      invariant k <= Expected(asked, found)
      invariant forall a :: a in nodes ==> a.proxy == LastWith(found[..k], a.proxyId, old(a.proxy))
    {
      if found[k].id !in nodeids {
        return UnexpectedKey(found[k].id);
      }
      SetProxy(nodes, nodeids, found[k]);
      assert found[..k + 1][..k] == found[..k];
    }
    assert found[..|found|] == found;
    r := Fine;
  }

  /** The answer, told by the neighbours: fine if and only if all of them were asked for,
      and otherwise the first that was not. */
  lemma ProxyAnswers(asked: seq<int>, found: seq<Proxy>)
    ensures ProxyAnswer(asked, found) == Fine <==> forall p :: p in found ==> p.id in asked
    ensures ProxyAnswer(asked, found) != Fine ==>
              exists k :: 0 <= k < |found| && ProxyAnswer(asked, found) == UnexpectedKey(found[k].id) && found[k].id !in asked
                          && forall j :: 0 <= j < k ==> found[j].id in asked
  {
    ExpectedAll(asked, found);
  }

  /** `loadProxy`. `answer` is what the query for `asked` returns, if it is sent. */
  method LoadProxy(nodes: seq<Account>, answer: Option<seq<Proxy>>) returns (asked: seq<int>, r: Loaded)
    modifies nodes`proxy
    ensures asked == FirstSeen(KeyRows(nodes))
    ensures r == if asked == [] then Fine
                 else if answer.None? then QueryFailed
                 else ProxyAnswer(asked, answer.value)
    ensures r == Fine <==> (forall a :: a in nodes ==> a.proxyId.None?)
                           || (answer.Some? && forall p :: p in answer.value ==> exists a :: a in nodes && a.proxyId == Some(p.id))
    ensures r == QueryFailed <==> (exists a :: a in nodes && a.proxyId.Some?) && answer.None?
    ensures asked == [] || answer.None? ==> forall a :: a in nodes ==> a.proxy == old(a.proxy)
    ensures asked != [] && answer.Some? ==>
              forall a :: a in nodes ==>
                            a.proxy == LastWith(answer.value[..Expected(asked, answer.value)], a.proxyId, old(a.proxy))
  {
    var nodeids;
    asked, nodeids := GroupByKey(nodes);
    AskedForKeys(nodes);
    if answer.Some? {
      ProxyAnswers(asked, answer.value);
    }
    if asked == [] {
      return asked, Fine;
    }
    if answer.None? {
      return asked, QueryFailed;
    }
    r := AssignProxies(nodes, asked, nodeids, answer.value);
  }

  ghost predicate Wanted(nodes: seq<Account>, key: int) {
    exists i :: 0 <= i < |nodes| && nodes[i].proxyId == Some(key)
  }

  lemma WantedNext(nodes: seq<Account>, key: int)
    requires nodes != []
    ensures Wanted(nodes, key) <==> Wanted(nodes[..|nodes| - 1], key) || nodes[|nodes| - 1].proxyId == Some(key)
  {
    var front := nodes[..|nodes| - 1];
    if Wanted(front, key) {
      var i :| 0 <= i < |front| && front[i].proxyId == Some(key);
      assert nodes[i].proxyId == Some(key);
    }
    if Wanted(nodes, key) && nodes[|nodes| - 1].proxyId != Some(key) {
      var i :| 0 <= i < |nodes| && nodes[i].proxyId == Some(key);
      assert front[i].proxyId == Some(key);
    }
  }

  /** No key is asked for twice, and the query asks for every key and only for keys. */
  lemma {:induction false} AskedOnce(nodes: seq<Account>)
    ensures var asked := FirstSeen(KeyRows(nodes));
            && (forall i, j :: 0 <= i < j < |asked| ==> asked[i] != asked[j])
            && (forall k :: k in asked <==> Wanted(nodes, k))
  {
    FirstSeenOnce(KeyRows(nodes));
    if nodes != [] {
      AskedOnce(nodes[..|nodes| - 1]);
      KeyRowsNext(nodes, |nodes| - 1);
      assert nodes[..|nodes|] == nodes;
      forall k ensures k in FirstSeen(KeyRows(nodes)) <==> Wanted(nodes, k) {
        WantedNext(nodes, k);
      }
    }
  }

  /** What is asked for, told by the accounts. */
  lemma AskedForKeys(nodes: seq<Account>)
    ensures var asked := FirstSeen(KeyRows(nodes));
            && (forall k :: k in asked <==> exists a :: a in nodes && a.proxyId == Some(k))
            && (asked == [] <==> forall a :: a in nodes ==> a.proxyId.None?)
  {
    AskedOnce(nodes);
    var asked := FirstSeen(KeyRows(nodes));
    forall k ensures k in asked <==> exists a :: a in nodes && a.proxyId == Some(k) {
      if Wanted(nodes, k) {
        var i :| 0 <= i < |nodes| && nodes[i].proxyId == Some(k);
        assert nodes[i] in nodes;
      }
      if exists a :: a in nodes && a.proxyId == Some(k) {
        var a :| a in nodes && a.proxyId == Some(k);
        var i := Position(nodes, a);
        assert Wanted(nodes, k);
      }
    }
    forall a | a in nodes && a.proxyId.Some? ensures asked != [] {
      assert a.proxyId.value in asked;
    }
    if asked != [] {
      assert asked[0] in asked;
    }
  }

  /** The error is unreachable exactly when the answer honours the query's filter. */
  lemma {:induction false} ExpectedAll(asked: seq<int>, found: seq<Proxy>)
    ensures Expected(asked, found) == |found| <==> forall p :: p in found ==> p.id in asked
  {
    if Expected(asked, found) < |found| {
      assert found[Expected(asked, found)] in found;
    }
  }

  /** A non-null key gets the neighbour with that identifier if there is one, and an
      account without one keeps what it had. */
  lemma {:induction false} LastWithIsTheJoin(found: seq<Proxy>, key: Option<int>, otherwise: Proxy?)
    requires forall i, j :: 0 <= i < j < |found| ==> found[i].id != found[j].id
    ensures forall p :: p in found && key == Some(p.id) ==> LastWith(found, key, otherwise) == p
    ensures (forall p :: p in found ==> key != Some(p.id)) ==> LastWith(found, key, otherwise) == otherwise
  {
    if found != [] && key.Some? {
      var front, last := found[..|found| - 1], found[|found| - 1];
      LastWithIsTheJoin(front, key, otherwise);
      assert found == front + [last];
      forall p | p in front ensures p.id != last.id {
        var i := Position(front, p);
        assert found[i] == p;
      }
    }
  }

  // ----- one to many: the children

  ghost predicate Placed(nodes: seq<Account>, child: Account) {
    child.parentId.Some? && HasId(nodes, child.parentId.value)
  }

  /** How many of the neighbours come before the first that has no place. */
  ghost function PlacedPrefix(nodes: seq<Account>, found: seq<Account>): (n: nat)
    ensures n <= |found|
    ensures forall k :: 0 <= k < n ==> Placed(nodes, found[k])
    ensures n < |found| ==> !Placed(nodes, found[n])
  {
    if found == [] || !Placed(nodes, found[0]) then 0 else 1 + PlacedPrefix(nodes, found[1..])
  }

  /** The neighbours whose parent is `id`, in the order of the query. */
  ghost function ChildrenOf(found: seq<Account>, id: int): seq<Account> {
    if found == [] then []
    else
      var before := ChildrenOf(found[..|found| - 1], id);
      if found[|found| - 1].parentId == Some(id) then before + [found[|found| - 1]] else before
  }

  function Ids(nodes: seq<Account>): (r: seq<int>)
    ensures |r| == |nodes| && forall i :: 0 <= i < |r| ==> r[i] == nodes[i].id
  {
    if nodes == [] then [] else Ids(nodes[..|nodes| - 1]) + [nodes[|nodes| - 1].id]
  }

  method IndexParents(nodes: seq<Account>) returns (asked: seq<int>, nodeids: map<int, Account>)
    requires Distinct(nodes)
    modifies nodes`children
    ensures asked == Ids(nodes) && Indexes(nodeids, nodes)
    ensures forall a :: a in nodes ==> a.children == []
  {
    asked, nodeids := [], map[];
    for i := 0 to |nodes|
      invariant asked == Ids(nodes[..i])
      invariant Indexes(nodeids, nodes[..i])
      invariant forall j :: 0 <= j < i ==> nodes[j].children == []
    {
      IndexesNext(nodes, nodeids, i);
      asked := asked + [nodes[i].id];
      nodeids := nodeids[nodes[i].id := nodes[i]];
      nodes[i].children := [];
    }
    assert nodes[..|nodes|] == nodes;
  }

  lemma IndexesNext(nodes: seq<Account>, nodeids: map<int, Account>, i: nat)
    requires Distinct(nodes) && i < |nodes| && Indexes(nodeids, nodes[..i])
    ensures Ids(nodes[..i + 1]) == Ids(nodes[..i]) + [nodes[i].id]
    ensures Indexes(nodeids[nodes[i].id := nodes[i]], nodes[..i + 1])
  {
    assert nodes[..i + 1][..i] == nodes[..i];
  }

  /** What the loop over the neighbours answers. */
  ghost function PlacedAnswer(nodes: seq<Account>, found: seq<Account>): Loaded {
    var n := PlacedPrefix(nodes, found);
    if n == |found| then Fine
    else if found[n].parentId.None? then MissingKey(found[n].id)
    else UnexpectedKey(found[n].parentId.value)
  }

  method Place(nodes: seq<Account>, nodeids: map<int, Account>, found: seq<Account>) returns (r: Loaded)
    requires Indexes(nodeids, nodes)
    requires forall a :: a in nodes ==> a.children == []
    modifies nodes`children
    ensures r == PlacedAnswer(nodes, found)
    ensures forall a :: a in nodes ==> a.children == ChildrenOf(found[..PlacedPrefix(nodes, found)], a.id)
  {
    for k := 0 to |found|
      invariant k <= PlacedPrefix(nodes, found)
      invariant forall a :: a in nodes ==> a.children == ChildrenOf(found[..k], a.id)
    {
      var fk := found[k].parentId;
      if fk.None? {
        return MissingKey(found[k].id);
      }
      PlacedIsIndexed(nodes, nodeids, found[k]);
      if fk.value !in nodeids {
        return UnexpectedKey(fk.value);
      }
      var node := nodeids[fk.value];
      OnlyOwner(nodes, nodeids, fk.value);
      node.children := node.children + [found[k]];
      assert found[..k + 1][..k] == found[..k];
    }
    assert found[..|found|] == found;
    r := Fine;
  }

  /** The answer, told by the neighbours: fine if and only if each names one of the accounts,
      and otherwise what is wrong with the first that does not. */
  lemma PlacedAnswers(nodes: seq<Account>, found: seq<Account>)
    ensures PlacedAnswer(nodes, found) == Fine <==> forall c :: c in found ==> Placed(nodes, c)
    ensures PlacedAnswer(nodes, found) != Fine ==>
              exists k :: 0 <= k < |found| && !Placed(nodes, found[k]) && (forall j :: 0 <= j < k ==> Placed(nodes, found[j]))
                          && PlacedAnswer(nodes, found) == if found[k].parentId.None? then MissingKey(found[k].id)
                                                           else UnexpectedKey(found[k].parentId.value)
  {
    var n := PlacedPrefix(nodes, found);
    if n < |found| {
      assert found[n] in found && !Placed(nodes, found[n]);
    }
  }

  /** `loadChildren`. The accounts' lists are cleared before the query is sent, and a
      neighbour without a place stops the loop. */
  method LoadChildren(nodes: seq<Account>, answer: Option<seq<Account>>) returns (asked: seq<int>, r: Loaded)
    requires Distinct(nodes)
    modifies nodes`children
    ensures asked == Ids(nodes)
    ensures r == if answer.None? then QueryFailed else PlacedAnswer(nodes, answer.value)
    ensures r == QueryFailed <==> answer.None?
    ensures r == Fine <==>
            answer.Some? && forall c :: c in answer.value ==> c.parentId.Some? && exists i :: 0 <= i < |nodes| && nodes[i].id == c.parentId.value
    ensures answer.None? ==> forall a :: a in nodes ==> a.children == []
    ensures answer.Some? ==>
              forall a :: a in nodes ==>
                            a.children == ChildrenOf(answer.value[..PlacedPrefix(nodes, answer.value)], a.id)
  {
    var nodeids;
    asked, nodeids := IndexParents(nodes);
    if answer.None? {
      return asked, QueryFailed;
    }
    r := Place(nodes, nodeids, answer.value);
    PlacedAnswers(nodes, answer.value);
  }

  lemma PlacedIsIndexed(nodes: seq<Account>, nodeids: map<int, Account>, child: Account)
    requires Indexes(nodeids, nodes)
    ensures Placed(nodes, child) <==> child.parentId.Some? && child.parentId.value in nodeids
  {
    if child.parentId.Some? && child.parentId.value in nodeids {
      OnlyOwner(nodes, nodeids, child.parentId.value);
    }
  }

  lemma OnlyOwner(nodes: seq<Account>, nodeids: map<int, Account>, id: int)
    requires Indexes(nodeids, nodes) && id in nodeids
    ensures HasId(nodes, id)
    ensures forall a :: a in nodes ==> (a.id == id <==> a == nodeids[id])
  {
    var i := Position(nodes, nodeids[id]);
    assert nodes[i].id == id;
    forall a | a in nodes && a.id == id ensures a == nodeids[id] {
      var j := Position(nodes, a);
      assert nodeids[nodes[j].id] == nodes[j];
    }
  }

  /** All the lists of children, one after the other. */
  ghost function AllChildren(nodes: seq<Account>, found: seq<Account>): seq<Account> {
    if nodes == [] then []
    else AllChildren(nodes[..|nodes| - 1], found) + ChildrenOf(found, nodes[|nodes| - 1].id)
  }

  /** Each list holds exactly the neighbours that name its owner. */
  lemma {:induction false} ChildrenAreTheJoin(found: seq<Account>, id: int)
    ensures var children := ChildrenOf(found, id);
            && (forall i :: 0 <= i < |children| ==> children[i] in found && children[i].parentId == Some(id))
            && (forall c :: c in found && c.parentId == Some(id) ==> c in children)
  {
    if found != [] {
      var front, last := found[..|found| - 1], found[|found| - 1];
      ChildrenAreTheJoin(front, id);
      assert found == front + [last];
      var before, children := ChildrenOf(front, id), ChildrenOf(found, id);
      assert last.parentId == Some(id) ==> children == before + [last] && children[|before|] == last;
      forall i | 0 <= i < |found| && found[i].parentId == Some(id) ensures found[i] in children {
        if i < |front| {
          assert found[i] == front[i];
        }
      }
    }
  }

  /** A list keeps the order of the query: what comes earlier in it was found earlier. */
  lemma {:induction false} ChildrenKeepOrder(found: seq<Account>, id: int, i: nat, j: nat) returns (p: nat, q: nat)
    requires i < j < |ChildrenOf(found, id)|
    ensures p < q < |found|
    ensures found[p] == ChildrenOf(found, id)[i] && found[q] == ChildrenOf(found, id)[j]
  {
    var front := found[..|found| - 1];
    var before := ChildrenOf(front, id);
    if j < |before| {
      p, q := ChildrenKeepOrder(front, id, i, j);
    } else {
      ChildrenAreTheJoin(front, id);
      p := Position(front, before[i]);
      q := |found| - 1;
    }
  }

  /** One more neighbour lengthens exactly one list, if it has a place. */
  lemma {:induction false} OneMoreChild(nodes: seq<Account>, found: seq<Account>)
    requires Distinct(nodes) && found != []
    ensures var front, last := found[..|found| - 1], found[|found| - 1];
            multiset(AllChildren(nodes, found)) ==
            multiset(AllChildren(nodes, front)) + if Placed(nodes, last) then multiset{last} else multiset{}
  {
    if nodes != [] {
      OneMoreChild(nodes[..|nodes| - 1], found);
      PlacedNext(nodes, found[|found| - 1]);
    }
  }

  lemma PlacedNext(nodes: seq<Account>, child: Account)
    requires Distinct(nodes) && nodes != []
    ensures var front, last := nodes[..|nodes| - 1], nodes[|nodes| - 1];
            && (Placed(nodes, child) <==> Placed(front, child) || child.parentId == Some(last.id))
            && (child.parentId == Some(last.id) ==> !Placed(front, child))
  {
    var front, last := nodes[..|nodes| - 1], nodes[|nodes| - 1];
    if Placed(front, child) {
      var i :| 0 <= i < |front| && front[i].id == child.parentId.value;
      assert nodes[i].id == child.parentId.value && nodes[i].id != last.id;
    }
    if Placed(nodes, child) && child.parentId != Some(last.id) {
      var i :| 0 <= i < |nodes| && nodes[i].id == child.parentId.value;
      assert front[i].id == child.parentId.value;
    }
  }

  /** The lists partition the neighbours: none is lost and none is in two lists. */
  lemma {:induction false} ChildrenArePartitioned(nodes: seq<Account>, found: seq<Account>)
    requires Distinct(nodes) && forall k :: 0 <= k < |found| ==> Placed(nodes, found[k])
    ensures multiset(AllChildren(nodes, found)) == multiset(found)
  {
    if found == [] {
      NoChildren(nodes);
    } else {
      ChildrenArePartitioned(nodes, found[..|found| - 1]);
      OneMoreChild(nodes, found);
      LastOfAll(found);
    }
  }

  lemma LastOfAll(found: seq<Account>)
    requires found != []
    ensures multiset(found) == multiset(found[..|found| - 1]) + multiset{found[|found| - 1]}
  {
    assert found == found[..|found| - 1] + [found[|found| - 1]];
  }

  /** The lengths of the lists add up to the number of neighbours. */
  lemma ChildrenAreCounted(nodes: seq<Account>, found: seq<Account>)
    requires Distinct(nodes) && forall k :: 0 <= k < |found| ==> Placed(nodes, found[k])
    ensures |AllChildren(nodes, found)| == |found|
  {
    ChildrenArePartitioned(nodes, found);
    SameSize(AllChildren(nodes, found), found);
  }

  lemma SameSize(a: seq<Account>, b: seq<Account>)
    requires multiset(a) == multiset(b)
    ensures |a| == |b|
  {
    assert |multiset(a)| == |a| && |multiset(b)| == |b|;
  }

  lemma {:induction false} NoChildren(nodes: seq<Account>)
    ensures AllChildren(nodes, []) == []
  {
    if nodes != [] {
      NoChildren(nodes[..|nodes| - 1]);
    }
  }

  /** The errors are unreachable exactly when the answer honours the query's filter. */
  lemma PlacedAll(nodes: seq<Account>, found: seq<Account>)
    ensures PlacedPrefix(nodes, found) == |found| <==>
            forall c :: c in found ==> c.parentId.Some? && c.parentId.value in Ids(nodes)
  {
    forall i | 0 <= i < |found|
      ensures var c := found[i]; Placed(nodes, c) <==> c.parentId.Some? && c.parentId.value in Ids(nodes)
    {
      var c := found[i];
      if c.parentId.Some? && c.parentId.value in Ids(nodes) {
        var i := Position(Ids(nodes), c.parentId.value);
        assert nodes[i].id == c.parentId.value;
      }
    }
    if PlacedPrefix(nodes, found) < |found| {
      assert found[PlacedPrefix(nodes, found)] in found;
    }
  }
}
