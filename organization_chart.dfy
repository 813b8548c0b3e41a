/**
 * The organisation chart of a company: members are grouped by level, the
 * levels are visited in the default `sort` order (which compares numbers as
 * texts), and every member becomes one positioned node and, when it names a
 * parent, one edge from that parent.
 */
module OrganizationChart {
  import opened Optional
  import opened Text
  import opened Lists
  import ProfileHover

  /** One person on the chart. */
  datatype Member = Member(
    id: string,
    name: string,
    position: string,
    department: Option<string>,
    email: Option<string>,
    phone: Option<string>,
    linkedinUrl: Option<string>,
    imageUrl: Option<string>,
    level: int,
    parentId: Option<string>)

  /** A chart node: the member's id, its position, and the member itself. */
  datatype FlowNode = FlowNode(id: string, x: real, y: int, data: Member)

  /** An edge from the parent's node to the member's node. */
  datatype FlowEdge = FlowEdge(id: string, source: string, target: string)

  function LevelOf(m: Member): int {
    m.level
  }

  function DataOf(n: FlowNode): Member {
    n.data
  }

  /** `if (node.parentId)`: an empty parent id counts as none. */
  predicate HasParent(m: Member) {
    Truthy(m.parentId)
  }

  /** The edge of a member with a parent: id `{parentId}-{id}`, from the parent to the member. */
  function EdgeOf(m: Member): (e: FlowEdge)
    ensures HasParent(m) ==> e.source == m.parentId.value && e.id == m.parentId.value + "-" + m.id
    ensures e.target == m.id
  {
    var parent := m.parentId.GetOr("");
    FlowEdge(parent + "-" + m.id, parent, m.id)
  }

  /** The member card's initials: the first letter of each non-empty piece, case as typed. */
  function NodeInitials(name: string): (r: string)
    ensures |r| == |ProfileHover.NonEmptyPieces(Split(name, ' '))| <= |Split(name, ' ')|
    ensures forall k :: 0 <= k < |r| ==> r[k] == ProfileHover.NonEmptyPieces(Split(name, ' '))[k][0]
  {
    ProfileHover.Heads(Split(name, ' '))
  }

  // ----- grouping by level -----

  function AtLevel(l: int): Member -> bool {
    (m: Member) => m.level == l
  }

  /** `levels[l]` once the grouping loop is done: the members of level `l`, in input order. */
  function MembersAt(s: seq<Member>, l: int): seq<Member> {
    Filter(s, AtLevel(l))
  }

  /** A group holds exactly the members of its level, in the order they were given. */
  lemma GroupKeepsOrder(s: seq<Member>, l: int)
    ensures IsSubsequence(MembersAt(s, l), s)
    ensures forall m :: m in MembersAt(s, l) ==> m.level == l
    ensures forall k :: 0 <= k < |s| && s[k].level == l ==> s[k] in MembersAt(s, l)
  {
    FilterIsSubsequence(s, AtLevel(l));
  }

  /** Some member is at level `l`. */
  predicate HasLevel(s: seq<Member>, l: int) {
    exists m :: m in s && m.level == l
  }

  /** The levels in the order they first occur (`Object.keys(levels)`, sorted next, so its order does not matter). */
  function FirstSeenLevels(s: seq<Member>): (r: seq<int>)
    ensures NoDuplicates(r)
    ensures forall m :: m in s ==> m.level in r
    ensures forall l :: l in r ==> HasLevel(s, l)
  {
    var ls := Map(s, LevelOf);
    forall l | l in ls
      ensures HasLevel(s, l)
    {
      var k :| 0 <= k < |ls| && ls[k] == l;
      assert s[k] in s;
    }
    Distinct(ls)
  }

  /** One more member adds its level at the end, unless the level was already seen. */
  lemma FirstSeenStep(s: seq<Member>, x: Member)
    ensures FirstSeenLevels(s + [x]) ==
      if x.level in FirstSeenLevels(s) then FirstSeenLevels(s) else FirstSeenLevels(s) + [x.level]
  {
    var ls := Map(s, LevelOf);
    MapConcat(s, [x], LevelOf);
    var ls' := Map(s + [x], LevelOf);
    assert ls' == ls + [x.level];
    assert ls'[..|ls'| - 1] == ls;
  }

  /** One more member joins the group of its level and no other. */
  lemma MembersAtStep(s: seq<Member>, x: Member, l: int)
    ensures MembersAt(s + [x], l) == MembersAt(s, l) + (if x.level == l then [x] else [])
  {
    FilterAppend(s, x, AtLevel(l));
  }

  /** A level not seen yet has an empty group. */
  lemma MembersAtUnseen(s: seq<Member>, l: int)
    requires l !in FirstSeenLevels(s)
    ensures MembersAt(s, l) == []
  {
    FilterNone(s, AtLevel(l));
  }

  /** Every group of `levels` holds exactly the members of `s` at its level. */
  ghost predicate GroupsMatch(levels: map<int, seq<Member>>, s: seq<Member>) {
    forall l :: l in levels ==> levels[l] == MembersAt(s, l)
  }

  /** The state of the grouping loop after the members `s`. */
  ghost predicate GroupState(levels: map<int, seq<Member>>, keys: seq<int>, s: seq<Member>) {
    && keys == FirstSeenLevels(s)
    && (forall l :: l in levels <==> l in keys)
    && GroupsMatch(levels, s)
  }

  /** Appending a member to its group keeps the grouping right. */
  lemma GroupStep(levels: map<int, seq<Member>>, s: seq<Member>, x: Member)
    requires x.level in levels && GroupsMatch(levels, s)
    ensures GroupsMatch(levels[x.level := levels[x.level] + [x]], s + [x])
  {
    var after := levels[x.level := levels[x.level] + [x]];
    forall l | l in after
      ensures after[l] == MembersAt(s + [x], l)
    {
      MembersAtStep(s, x, l);
    }
  }

  /** A member of a level met before joins its group. */
  lemma GroupSeen(levels: map<int, seq<Member>>, keys: seq<int>, s: seq<Member>, x: Member)
    requires GroupState(levels, keys, s) && x.level in levels
    ensures GroupState(levels[x.level := levels[x.level] + [x]], keys, s + [x])
  {
    FirstSeenStep(s, x);
    GroupStep(levels, s, x);
  }

  /** A member of a new level opens its group and adds its level to the keys. */
  lemma GroupUnseen(levels: map<int, seq<Member>>, keys: seq<int>, s: seq<Member>, x: Member)
    requires GroupState(levels, keys, s) && x.level !in levels
    ensures GroupState(levels[x.level := []][x.level := [] + [x]], keys + [x.level], s + [x])
  {
    FirstSeenStep(s, x);
    MembersAtUnseen(s, x.level);
    var started := levels[x.level := []];
    assert GroupsMatch(started, s);
    GroupStep(started, s, x);
  }

  /**
   * The grouping loop: `levels[l]` collects the members of level `l`, and
   * `keys` lists each level once, in the order it was first met.
   */
  method GroupByLevel(members: seq<Member>) returns (levels: map<int, seq<Member>>, keys: seq<int>)
    ensures keys == FirstSeenLevels(members)
    ensures forall l :: l in levels <==> l in keys
    ensures forall l :: l in levels ==> levels[l] == MembersAt(members, l)
  {
    levels := map[];
    keys := [];
    var i := 0;
    while i < |members|
      invariant 0 <= i <= |members|
      invariant GroupState(levels, keys, members[..i])
    {
      var node := members[i];
      assert members[..i + 1] == members[..i] + [node];
      if node.level !in levels {
        GroupUnseen(levels, keys, members[..i], node);
        levels := levels[node.level := []];
        keys := keys + [node.level];
      } else {
        GroupSeen(levels, keys, members[..i], node);
      }
      levels := levels[node.level := levels[node.level] + [node]];
      i := i + 1;
    }
    assert members[..i] == members;
  }

  // ----- the order of the levels -----

  /** The default comparison of `sort()`: numbers compared as their decimal texts. */
  function LevelOrder(a: int, b: int): int {
    Compare(IntToString(a), IntToString(b))
  }

  lemma LevelOrderIsTotalPreorder()
    ensures TotalPreorder(LevelOrder)
  {
    forall a, b
      ensures NotAfter(LevelOrder, a, b) || NotAfter(LevelOrder, b, a)
    {
      CompareAntisymmetric(IntToString(a), IntToString(b));
    }
    forall a, b, c | NotAfter(LevelOrder, a, b) && NotAfter(LevelOrder, b, c)
      ensures LevelOrder(a, c) <= 0
    {
      CompareTransitive(IntToString(a), IntToString(b), IntToString(c));
    }
  }

  /** `Object.keys(levels).map(Number).sort()`. */
  function LevelKeys(s: seq<Member>): seq<int> {
    SortBy(FirstSeenLevels(s), LevelOrder)
  }

  /** Each value of the list occurs in it exactly once. */
  predicate OnceEach(keys: seq<int>) {
    forall l :: l in keys ==> multiset(keys)[l] == 1
  }

  /** Every level present is visited once, in text order of the level numbers. */
  lemma LevelKeysSpec(s: seq<Member>)
    ensures SortedBy(LevelKeys(s), LevelOrder)
    ensures forall m :: m in s ==> m.level in LevelKeys(s)
    ensures forall l :: l in LevelKeys(s) ==> HasLevel(s, l)
    ensures OnceEach(LevelKeys(s))
  {
    var first := FirstSeenLevels(s);
    var keys := LevelKeys(s);
    LevelOrderIsTotalPreorder();
    SortBySorted(first, LevelOrder);
    SameElements(keys, first);
    forall l | l in keys
      ensures multiset(keys)[l] == 1
    {
      NoDuplicatesCount(first, l);
    }
  }

  /** Distinct levels get distinct texts, so the order is strict between them. */
  lemma LevelOrderStrict(a: int, b: int)
    requires a != b
    ensures LevelOrder(a, b) != 0
  {
    IntToStringRoundTrip(a);
    IntToStringRoundTrip(b);
  }

  /** As texts, "10" sorts before "2". */
  lemma TenSortsBeforeTwo()
    ensures LevelOrder(10, 2) < 0 && LevelOrder(2, 10) > 0
  {
    assert IntToString(2) == "2";
    assert IntToString(10) == "10";
    CompareAntisymmetric("10", "2");
  }

  /** So a chart with levels 2 and 10 lays out level 10 first. */
  lemma LevelTenBeforeTwo(s: seq<Member>, i: int, j: int)
    requires 0 <= i < |LevelKeys(s)| && 0 <= j < |LevelKeys(s)|
    requires LevelKeys(s)[i] == 2 && LevelKeys(s)[j] == 10
    ensures j < i
  {
    LevelKeysSpec(s);
    TenSortsBeforeTwo();
  }

  // ----- positions -----

  /** `(level - 1) * (isMobile ? 250 : 200)`. */
  function Y(level: int, isMobile: bool): int {
    if isMobile then (level - 1) * 250 else (level - 1) * 200
  }

  /**
   * On a phone `index * 220`; otherwise the `index + 1`-th of `width + 1`
   * equal steps across 1000, or across `width * 300` for more than three.
   */
  function X(index: nat, width: nat, isMobile: bool): real {
    if isMobile then (index * 220) as real
    else ((index + 1) as real / (width + 1) as real) * (if width <= 3 then 1000.0 else (width * 300) as real)
  }

  /** The span a level of `width` members is spread over on a wide screen. */
  function Span(width: nat): real {
    if width <= 3 then 1000.0 else (width * 300) as real
  }

  /** On a wide screen the members of a level lie strictly inside the span, left to right in order. */
  lemma DesktopPositionsIncrease(i: nat, j: nat, width: nat)
    requires i < j < width
    ensures 0.0 < X(i, width, false) < X(j, width, false) < Span(width)
  {
    var d := (width + 1) as real;
    var c := Span(width);
    var p := (i + 1) as real / d;
    var q := (j + 1) as real / d;
    assert X(i, width, false) == p * c;
    assert X(j, width, false) == q * c;
    FractionsBelowOne((i + 1) as real, (j + 1) as real, d);
    ScaleKeepsOrder(0.0, p, c);
    ScaleKeepsOrder(p, q, c);
    ScaleKeepsOrder(q, 1.0, c);
  }

  lemma FractionsBelowOne(a: real, b: real, d: real)
    requires 0.0 < a < b < d
    ensures 0.0 < a / d < b / d < 1.0
  {
    DivideKeepsOrder(0.0, a, d);
    DivideKeepsOrder(a, b, d);
    DivideKeepsOrder(b, d, d);
    assert d / d == 1.0;
  }

  lemma DivideKeepsOrder(a: real, b: real, d: real)
    requires a < b && 0.0 < d
    ensures a / d < b / d
  {
    var p := a / d;
    var q := b / d;
    assert p * d == a;
    assert q * d == b;
    assert (q - p) * d == b - a;
  }

  lemma ScaleKeepsOrder(a: real, b: real, c: real)
    requires a < b && 0.0 < c
    ensures a * c < b * c
  {
  }

  // ----- nodes and edges -----

  /** The nodes of one level, in the order of its group. */
  function LevelNodes(level: int, ms: seq<Member>, isMobile: bool): (r: seq<FlowNode>)
    ensures |r| == |ms|
    ensures forall k :: 0 <= k < |ms| ==> r[k] == FlowNode(ms[k].id, X(k, |ms|, isMobile), Y(level, isMobile), ms[k])
  {
    seq(|ms|, (k: int) requires 0 <= k < |ms| => FlowNode(ms[k].id, X(k, |ms|, isMobile), Y(level, isMobile), ms[k]))
  }

  /** The edges of one level: one per member with a parent, in the order of its group. */
  function LevelEdges(ms: seq<Member>): seq<FlowEdge> {
    Map(Filter(ms, HasParent), EdgeOf)
  }

  /** The groups of `keys`, one after the other. */
  function Grouped(s: seq<Member>, keys: seq<int>): seq<Member> {
    if keys == [] then []
    else Grouped(s, keys[..|keys| - 1]) + MembersAt(s, keys[|keys| - 1])
  }

  /** The members with a parent, group after group. */
  function EdgeMembers(s: seq<Member>, keys: seq<int>): seq<Member> {
    if keys == [] then []
    else EdgeMembers(s, keys[..|keys| - 1]) + Filter(MembersAt(s, keys[|keys| - 1]), HasParent)
  }

  /** `flowNodes` after visiting `keys`. */
  function AllNodes(s: seq<Member>, keys: seq<int>, isMobile: bool): seq<FlowNode> {
    if keys == [] then []
    else
      var l := keys[|keys| - 1];
      AllNodes(s, keys[..|keys| - 1], isMobile) + LevelNodes(l, MembersAt(s, l), isMobile)
  }

  /** `flowEdges` after visiting `keys`. */
  function AllEdges(s: seq<Member>, keys: seq<int>): seq<FlowEdge> {
    if keys == [] then []
    else AllEdges(s, keys[..|keys| - 1]) + LevelEdges(MembersAt(s, keys[|keys| - 1]))
  }

  /** The chart of a member list: its nodes and edges, levels in `sort` order. */
  function ChartNodes(s: seq<Member>, isMobile: bool): seq<FlowNode> {
    AllNodes(s, LevelKeys(s), isMobile)
  }

  function ChartEdges(s: seq<Member>): seq<FlowEdge> {
    AllEdges(s, LevelKeys(s))
  }

  /** The inner loop: one node per member of a level, and one edge per member of it with a parent. */
  method LayOutLevel(level: int, nodesInLevel: seq<Member>, isMobile: bool)
    returns (levelNodes: seq<FlowNode>, levelEdges: seq<FlowEdge>)
    ensures levelNodes == LevelNodes(level, nodesInLevel, isMobile)
    ensures levelEdges == LevelEdges(nodesInLevel)
  {
    levelNodes := [];
    levelEdges := [];
    var levelWidth := |nodesInLevel|;
    ghost var all := LevelNodes(level, nodesInLevel, isMobile);
    var index := 0;
    while index < levelWidth
      invariant 0 <= index <= levelWidth
      invariant levelNodes == all[..index]
      invariant levelEdges == LevelEdges(nodesInLevel[..index])
    {
      var node := nodesInLevel[index];
      var xPos := X(index, levelWidth, isMobile);
      var yPos := Y(level, isMobile);
      assert all[index] == FlowNode(node.id, xPos, yPos, node);
      assert all[..index + 1] == all[..index] + [all[index]];
      levelNodes := levelNodes + [FlowNode(node.id, xPos, yPos, node)];
      EdgeStep(nodesInLevel, index);
      if HasParent(node) {
        levelEdges := levelEdges + [EdgeOf(node)];
      }
      index := index + 1;
    }
    assert nodesInLevel[..index] == nodesInLevel;
    assert all[..index] == all;
  }

  /** One more member of a level adds its edge, if it has a parent. */
  lemma EdgeStep(ms: seq<Member>, i: int)
    requires 0 <= i < |ms|
    ensures LevelEdges(ms[..i + 1]) == LevelEdges(ms[..i]) + (if HasParent(ms[i]) then [EdgeOf(ms[i])] else [])
  {
    var prefix := ms[..i];
    assert ms[..i + 1] == prefix + [ms[i]];
    FilterAppend(prefix, ms[i], HasParent);
    if HasParent(ms[i]) {
      assert Filter(ms[..i + 1], HasParent) == Filter(prefix, HasParent) + [ms[i]];
      MapConcat(Filter(prefix, HasParent), [ms[i]], EdgeOf);
    } else {
      assert Filter(ms[..i + 1], HasParent) == Filter(prefix, HasParent);
    }
  }

  /**
   * The outer loop: for each level in `levelKeys`, the nodes and edges of its
   * group are appended.
   */
  method LayOut(members: seq<Member>, levels: map<int, seq<Member>>, levelKeys: seq<int>, isMobile: bool)
    returns (flowNodes: seq<FlowNode>, flowEdges: seq<FlowEdge>)
    requires forall l :: l in levelKeys ==> l in levels && levels[l] == MembersAt(members, l)
    ensures flowNodes == AllNodes(members, levelKeys, isMobile)
    ensures flowEdges == AllEdges(members, levelKeys)
  {
    flowNodes := [];
    flowEdges := [];
    var i := 0;
    while i < |levelKeys|
      invariant 0 <= i <= |levelKeys|
      invariant flowNodes == AllNodes(members, levelKeys[..i], isMobile)
      invariant flowEdges == AllEdges(members, levelKeys[..i])
    {
      var level := levelKeys[i];
      var levelNodes, levelEdges := LayOutLevel(level, levels[level], isMobile);
      LayOutStep(members, levelKeys, i, isMobile);
      flowNodes := flowNodes + levelNodes;
      flowEdges := flowEdges + levelEdges;
      i := i + 1;
    }
    assert levelKeys[..i] == levelKeys;
  }

  /** One more level appends its nodes and edges. */
  lemma LayOutStep(s: seq<Member>, keys: seq<int>, i: int, isMobile: bool)
    requires 0 <= i < |keys|
    ensures AllNodes(s, keys[..i + 1], isMobile) ==
      AllNodes(s, keys[..i], isMobile) + LevelNodes(keys[i], MembersAt(s, keys[i]), isMobile)
    ensures AllEdges(s, keys[..i + 1]) == AllEdges(s, keys[..i]) + LevelEdges(MembersAt(s, keys[i]))
  {
    var k := keys[..i + 1];
    assert k[..|k| - 1] == keys[..i];
    assert k[|k| - 1] == keys[i];
  }

  // ----- one node per member, one edge per parent link -----

  /** The nodes carry the grouped members, in order, and nothing else. */
  lemma {:induction false} NodesCarryGroups(s: seq<Member>, keys: seq<int>, isMobile: bool)
    ensures Map(AllNodes(s, keys, isMobile), DataOf) == Grouped(s, keys)
  {
    if keys != [] {
      var init := keys[..|keys| - 1];
      var l := keys[|keys| - 1];
      NodesCarryGroups(s, init, isMobile);
      MapConcat(AllNodes(s, init, isMobile), LevelNodes(l, MembersAt(s, l), isMobile), DataOf);
      assert Map(LevelNodes(l, MembersAt(s, l), isMobile), DataOf) == MembersAt(s, l);
    }
  }

  /** The edges are those of the members with a parent, group after group. */
  lemma {:induction false} EdgesFollowMembers(s: seq<Member>, keys: seq<int>)
    ensures forall m :: m in EdgeMembers(s, keys) ==> HasParent(m)
    ensures AllEdges(s, keys) == Map(EdgeMembers(s, keys), EdgeOf)
  {
    if keys != [] {
      var init := keys[..|keys| - 1];
      var l := keys[|keys| - 1];
      EdgesFollowMembers(s, init);
      MapConcat(EdgeMembers(s, init), Filter(MembersAt(s, l), HasParent), EdgeOf);
    }
  }

  /** Dropping the last of a list of distinct keys leaves distinct keys without it. */
  lemma OnceEachInit(init: seq<int>, l: int)
    requires OnceEach(init + [l])
    ensures OnceEach(init) && l !in init
  {
    var keys := init + [l];
    assert multiset(keys) == multiset(init) + multiset{l};
    assert l in keys;
    forall k | k in init
      ensures multiset(init)[k] == 1
    {
      assert k in keys;
    }
  }

  /** Over distinct keys, a member is grouped once if its level is listed, and not at all otherwise. */
  lemma {:induction false} GroupedCount(s: seq<Member>, keys: seq<int>, x: Member)
    requires OnceEach(keys)
    ensures multiset(Grouped(s, keys))[x] == if x.level in keys then multiset(s)[x] else 0
  {
    if keys != [] {
      var init := keys[..|keys| - 1];
      var l := keys[|keys| - 1];
      assert keys == init + [l];
      OnceEachInit(init, l);
      GroupedCount(s, init, x);
      FilterMultiset(s, AtLevel(l), x);
    }
  }

  /** The same for the members with a parent. */
  lemma {:induction false} EdgeMembersCount(s: seq<Member>, keys: seq<int>, x: Member)
    requires OnceEach(keys)
    ensures multiset(EdgeMembers(s, keys))[x] == if x.level in keys && HasParent(x) then multiset(s)[x] else 0
  {
    if keys != [] {
      var init := keys[..|keys| - 1];
      var l := keys[|keys| - 1];
      assert keys == init + [l];
      OnceEachInit(init, l);
      EdgeMembersCount(s, init, x);
      FilterMultiset(MembersAt(s, l), HasParent, x);
      FilterMultiset(s, AtLevel(l), x);
    }
  }

  /**
   * Exactly one node per member: the nodes carry the members (as a multiset),
   * each under the member's id and at its level's height.
   */
  lemma OneNodePerMember(s: seq<Member>, isMobile: bool)
    ensures multiset(Map(ChartNodes(s, isMobile), DataOf)) == multiset(s)
    ensures |ChartNodes(s, isMobile)| == |s|
  {
    var keys := LevelKeys(s);
    LevelKeysSpec(s);
    NodesCarryGroups(s, keys, isMobile);
    forall x
      ensures multiset(Grouped(s, keys))[x] == multiset(s)[x]
    {
      GroupedCount(s, keys, x);
      if x in s {
        assert x.level in keys;
      } else {
        assert multiset(s)[x] == 0;
      }
    }
    assert multiset(Grouped(s, keys)) == multiset(s);
    assert |Grouped(s, keys)| == |multiset(s)|;
  }

  /** Every node is named after its member and sits at its member's level. */
  lemma {:induction false} NodesAtTheirLevel(s: seq<Member>, keys: seq<int>, isMobile: bool)
    ensures forall n :: n in AllNodes(s, keys, isMobile) ==> n.id == n.data.id && n.y == Y(n.data.level, isMobile)
  {
    if keys != [] {
      var l := keys[|keys| - 1];
      NodesAtTheirLevel(s, keys[..|keys| - 1], isMobile);
      var ln := LevelNodes(l, MembersAt(s, l), isMobile);
      forall n | n in ln
        ensures n.id == n.data.id && n.y == Y(n.data.level, isMobile)
      {
        var k :| 0 <= k < |ln| && ln[k] == n;
        assert MembersAt(s, l)[k] in MembersAt(s, l);
      }
    }
  }

  /**
   * Exactly one edge per member with a parent, from the parent to the
   * member; members without one (the roots) get none.
   */
  lemma OneEdgePerParentLink(s: seq<Member>)
    ensures ChartEdges(s) == Map(EdgeMembers(s, LevelKeys(s)), EdgeOf)
    ensures multiset(EdgeMembers(s, LevelKeys(s))) == multiset(Filter(s, HasParent))
  {
    var keys := LevelKeys(s);
    LevelKeysSpec(s);
    EdgesFollowMembers(s, keys);
    forall x
      ensures multiset(EdgeMembers(s, keys))[x] == multiset(Filter(s, HasParent))[x]
    {
      EdgeMembersCount(s, keys, x);
      FilterMultiset(s, HasParent, x);
      if x in s {
        assert x.level in keys;
      } else {
        assert multiset(s)[x] == 0;
      }
    }
    assert multiset(EdgeMembers(s, keys)) == multiset(Filter(s, HasParent));
  }

  // ----- the component -----

  /** What the component renders. */
  datatype View = Loading | NoData | Chart(nodes: seq<FlowNode>, edges: seq<FlowEdge>)

  /** `!data || !data.nodes || data.nodes.length === 0`, with a missing list as None. */
  predicate NoMembers(data: Option<seq<Member>>) {
    data.None? || data.value == []
  }

  class OrgChart {
    var nodes: seq<FlowNode>
    var edges: seq<FlowEdge>
    var isLoading: bool
    var isFullscreen: bool

    constructor ()
      ensures nodes == [] && edges == [] && isLoading && !isFullscreen
    {
      nodes := [];
      edges := [];
      isLoading := true;
      isFullscreen := false;
    }

    /** The spinner first, then the "no data" card or the chart. */
    function Render(data: Option<seq<Member>>): (v: View)
      reads this
      ensures isLoading ==> v == Loading
      ensures !isLoading && NoMembers(data) ==> v == NoData
      ensures !isLoading && !NoMembers(data) ==> v == Chart(nodes, edges)
    {
      if isLoading then Loading
      else if NoMembers(data) then NoData
      else Chart(nodes, edges)
    }

    /**
     * `createNodesAndEdges`: no members only ends loading (the previous
     * nodes and edges stay); otherwise the chart is rebuilt.
     */
    method CreateNodesAndEdges(data: Option<seq<Member>>, isMobile: bool)
      modifies this
      ensures !isLoading && isFullscreen == old(isFullscreen)
      ensures NoMembers(data) ==> nodes == old(nodes) && edges == old(edges)
      ensures !NoMembers(data) ==> nodes == ChartNodes(data.value, isMobile) && edges == ChartEdges(data.value)
    {
      if NoMembers(data) {
        isLoading := false;
        return;
      }
      var members := data.value;
      var levels, keys := GroupByLevel(members);
      var levelKeys := SortBy(keys, LevelOrder);
      assert levelKeys == LevelKeys(members);
      SameElements(levelKeys, keys);
      var flowNodes, flowEdges := LayOut(members, levels, levelKeys, isMobile);
      nodes := flowNodes;
      edges := flowEdges;
      isLoading := false;
    }

    /** The effect run when the data or the screen size changes. */
    method DataChanged(data: Option<seq<Member>>, isMobile: bool)
      modifies this
      ensures Render(data) == (if NoMembers(data) then NoData else Chart(ChartNodes(data.value, isMobile), ChartEdges(data.value)))
      ensures isFullscreen == old(isFullscreen)
    {
      isLoading := true;
      CreateNodesAndEdges(data, isMobile);
    }

    /** The full-screen button; without a container element nothing happens. */
    method ToggleFullscreen(hasContainer: bool)
      modifies this
      ensures isFullscreen == (if hasContainer then !old(isFullscreen) else old(isFullscreen))
      ensures nodes == old(nodes) && edges == old(edges) && isLoading == old(isLoading)
    {
      if !hasContainer {
        return;
      }
      isFullscreen := !isFullscreen;
    }

    /** The browser's full-screen event: the flag follows whether an element is full screen. */
    method FullscreenChanged(anyFullscreenElement: bool)
      modifies this
      ensures isFullscreen == anyFullscreenElement
      ensures nodes == old(nodes) && edges == old(edges) && isLoading == old(isLoading)
    {
      isFullscreen := anyFullscreenElement;
    }
  }
}
