/**
 * The sensor-tree queries of the hardware API service: a depth-first search
 * for the first node with a given sensor id or name, and a filter that
 * collects every node of a given sensor type.
 */
module SensorTree {
  import opened Wrappers

  /**
   * One node of the hardware tree the API returns. `SensorId` and `Type`
   * are optional; `Children` is declared as always present, but the queries
   * test it before iterating, so a missing list is modelled as `Missing`.
   */
  datatype SensorNode = SensorNode(
    children: Children,
    imageUrl: string,
    max: string,
    min: string,
    sensorId: Option<string>,
    text: string,
    sensorType: Option<string>,
    value: string,
    id: int)

  /** A node's `Children` list, or its absence. */
  datatype Children = Missing | Nodes(nodes: seq<SensorNode>)

  /** The node the HTTP layer substitutes when a request fails. */
  const ErrorNode := SensorNode(Nodes([]), "", "", "", None, "Error", None, "", 0)

  /** The key a query compares: sensor id, sensor type or display text. */
  datatype Query = BySensorId(sensorId: string) | ByType(sensorType: string) | ByText(text: string)

  /** Strict equality of the queried field; an absent field never equals a string. */
  predicate Matches(q: Query, n: SensorNode)
    ensures q.BySensorId? && n.sensorId.None? ==> !Matches(q, n)
    ensures q.ByType? && n.sensorType.None? ==> !Matches(q, n)
    ensures q.ByText? ==> (Matches(q, n) <==> n.text == q.text)
  {
    match q
    case BySensorId(id) => n.sensorId == Some(id)
    case ByType(t) => n.sensorType == Some(t)
    case ByText(name) => n.text == name
  }

  /** Membership in the tree rooted at `n`: the root or a node below one of its children. */
  predicate InTree(m: SensorNode, n: SensorNode)
    decreases n
  {
    m == n ||
    match n.children
    case Missing => false
    case Nodes(cs) => exists c :: c in cs && InTree(m, c)
  }

  /** The nodes of the tree in pre-order: parent first, then children left to right. */
  function PreOrder(n: SensorNode): seq<SensorNode>
    decreases n
  {
    match n.children
    case Missing => [n]
    case Nodes(cs) => [n] + PreOrderAll(cs)
  }

  /** The pre-order sequences of a list of sibling trees, concatenated. */
  function PreOrderAll(cs: seq<SensorNode>): seq<SensorNode>
    decreases cs
  {
    if cs == [] then [] else PreOrder(cs[0]) + PreOrderAll(cs[1..])
  }

  lemma {:induction false} PreOrderAllSnoc(cs: seq<SensorNode>, i: nat)
    requires i < |cs|
    ensures PreOrderAll(cs[..i + 1]) == PreOrderAll(cs[..i]) + PreOrder(cs[i])
    decreases i
  {
    if i == 0 {
      assert cs[..1][1..] == [];
    } else {
      var tail := cs[1..];
      assert cs[..i + 1][1..] == tail[..i];
      assert cs[..i][1..] == tail[..i - 1];
      PreOrderAllSnoc(tail, i - 1);
    }
  }

  /** The pre-order sequence lists exactly the nodes of the tree. */
  lemma {:induction false} PreOrderIsTree(m: SensorNode, n: SensorNode)
    ensures m in PreOrder(n) <==> InTree(m, n)
    decreases n
  {
    match n.children
    case Missing =>
    case Nodes(cs) =>
      PreOrderAllIsForest(m, cs);
  }

  lemma {:induction false} PreOrderAllIsForest(m: SensorNode, cs: seq<SensorNode>)
    ensures m in PreOrderAll(cs) <==> exists c :: c in cs && InTree(m, c)
    decreases cs
  {
    if cs != [] {
      PreOrderIsTree(m, cs[0]);
      PreOrderAllIsForest(m, cs[1..]);
      if InTree(m, cs[0]) {
      } else if exists c :: c in cs && InTree(m, c) {
        var c :| c in cs && InTree(m, c);
        assert c in cs[1..];
      }
    }
  }

  /** The first element of `s` that the query matches, if any. */
  function FirstMatch(q: Query, s: seq<SensorNode>): (r: Option<SensorNode>)
    ensures r.None? <==> forall i :: 0 <= i < |s| ==> !Matches(q, s[i])
    ensures r.Some? ==>
      exists i :: 0 <= i < |s| && s[i] == r.value && Matches(q, s[i]) &&
        forall j :: 0 <= j < i ==> !Matches(q, s[j])
    decreases s
  {
    if s == [] then None
    else if Matches(q, s[0]) then Some(s[0])
    else
      var r := FirstMatch(q, s[1..]);
      assert forall i :: 1 <= i < |s| ==> s[i] == s[1..][i - 1];
      r
  }

  lemma {:induction false} FirstMatchAppend(q: Query, a: seq<SensorNode>, b: seq<SensorNode>)
    ensures FirstMatch(q, a + b) == if FirstMatch(q, a).Some? then FirstMatch(q, a) else FirstMatch(q, b)
    decreases a
  {
    if a == [] {
      assert a + b == b;
    } else {
      assert (a + b)[0] == a[0];
      assert (a + b)[1..] == a[1..] + b;
      FirstMatchAppend(q, a[1..], b);
    }
  }

  /**
   * The recursive search shared by findSensorById and getComponentByName:
   * the root when it matches, otherwise the first hit among the children,
   * searched left to right.
   */
  function Find(q: Query, n: SensorNode): (r: Option<SensorNode>)
    ensures r == FirstMatch(q, PreOrder(n))
    decreases n
  {
    if Matches(q, n) then Some(n)
    else
      match n.children
      case Missing => None
      case Nodes(cs) =>
        assert ([n] + PreOrderAll(cs))[1..] == PreOrderAll(cs);
        FindIn(q, cs)
  }

  /** The loop over the children: stop at the first child whose subtree holds a match. */
  function FindIn(q: Query, cs: seq<SensorNode>): (r: Option<SensorNode>)
    ensures r == FirstMatch(q, PreOrderAll(cs))
    decreases cs
  {
    if cs == [] then None
    else
      FirstMatchAppend(q, PreOrder(cs[0]), PreOrderAll(cs[1..]));
      match Find(q, cs[0])
      case Some(found) => Some(found)
      case None => FindIn(q, cs[1..])
  }

  /** findSensorById: the first node in pre-order whose `SensorId` is `id`. */
  function FindSensorById(id: string, data: SensorNode): (r: Option<SensorNode>)
    ensures data.sensorId == Some(id) ==> r == Some(data)
    ensures r.Some? ==> r.value.sensorId == Some(id) && InTree(r.value, data)
    ensures r.None? <==> forall m :: InTree(m, data) ==> m.sensorId != Some(id)
    ensures r == FirstMatch(BySensorId(id), PreOrder(data))
    ensures data.children.Missing? ==> (r.Some? <==> data.sensorId == Some(id))
  {
    FindIsTreeSearch(BySensorId(id), data);
    Find(BySensorId(id), data)
  }

  /** getComponentByName: the first node in pre-order whose `Text` is `name`. */
  function GetComponentByName(name: string, data: SensorNode): (r: Option<SensorNode>)
    ensures data.text == name ==> r == Some(data)
    ensures r.Some? ==> r.value.text == name && InTree(r.value, data)
    ensures r.None? <==> forall m :: InTree(m, data) ==> m.text != name
    ensures r == FirstMatch(ByText(name), PreOrder(data))
    ensures data.children.Missing? ==> (r.Some? <==> data.text == name)
  {
    FindIsTreeSearch(ByText(name), data);
    Find(ByText(name), data)
  }

  /** A search hit is a matching node of the tree, and a miss means no node of the tree matches. */
  lemma FindIsTreeSearch(q: Query, n: SensorNode)
    ensures Find(q, n).Some? ==> Matches(q, Find(q, n).value) && InTree(Find(q, n).value, n)
    ensures Find(q, n).None? <==> forall m :: InTree(m, n) ==> !Matches(q, m)
  {
    var r := Find(q, n);
    if r.Some? {
      PreOrderIsTree(r.value, n);
    }
    forall m | InTree(m, n) && Matches(q, m)
      ensures r.Some?
    {
      PreOrderIsTree(m, n);
    }
  }

  /** The nodes of `s` that the query matches, in their order in `s`. */
  function Filter(q: Query, s: seq<SensorNode>): (r: seq<SensorNode>)
    ensures |r| <= |s|
    ensures forall i :: 0 <= i < |r| ==> Matches(q, r[i])
    decreases s
  {
    if s == [] then []
    else (if Matches(q, s[0]) then [s[0]] else []) + Filter(q, s[1..])
  }

  lemma {:induction false} FilterAppend(q: Query, a: seq<SensorNode>, b: seq<SensorNode>)
    ensures Filter(q, a + b) == Filter(q, a) + Filter(q, b)
    decreases a
  {
    if a == [] {
      assert a + b == b;
    } else {
      assert (a + b)[0] == a[0];
      assert (a + b)[1..] == a[1..] + b;
      FilterAppend(q, a[1..], b);
      var head := if Matches(q, a[0]) then [a[0]] else [];
      calc {
        Filter(q, a + b);
        head + Filter(q, a[1..] + b);
        head + (Filter(q, a[1..]) + Filter(q, b));
        (head + Filter(q, a[1..])) + Filter(q, b);
      }
    }
  }

  /** Every matching node is kept as often as it occurs, and nothing else is kept. */
  lemma {:induction false} FilterMultiplicity(q: Query, s: seq<SensorNode>, x: SensorNode)
    ensures multiset(Filter(q, s))[x] == if Matches(q, x) then multiset(s)[x] else 0
    decreases s
  {
    if s != [] {
      assert s == [s[0]] + s[1..];
      FilterMultiplicity(q, s[1..], x);
    }
  }

  /** The positions of `s` that hold a matching node. */
  ghost function MatchPositions(q: Query, s: seq<SensorNode>): set<nat> {
    set i: nat | i < |s| && Matches(q, s[i])
  }

  /** Membership in the filter: exactly the matching members of `s`. */
  lemma FilterMembers(q: Query, s: seq<SensorNode>, m: SensorNode)
    ensures m in Filter(q, s) <==> m in s && Matches(q, m)
  {
    FilterMultiplicity(q, s, m);
    assert m in Filter(q, s) <==> multiset(Filter(q, s))[m] > 0;
    assert m in s <==> multiset(s)[m] > 0;
  }

  lemma MatchPositionsSnoc(q: Query, s: seq<SensorNode>, x: SensorNode)
    ensures MatchPositions(q, s + [x]) == MatchPositions(q, s) + if Matches(q, x) then {|s|} else {}
  {
    var t := s + [x];
    forall i: nat | i < |s|
      ensures t[i] == s[i]
    {
    }
    assert t[|s|] == x;
  }

  /** The filter is as long as the number of matching positions. */
  lemma {:induction false} FilterCount(q: Query, s: seq<SensorNode>)
    ensures |Filter(q, s)| == |MatchPositions(q, s)|
    decreases |s|
  {
    if s != [] {
      var k := |s| - 1;
      var init := s[..k];
      assert s == init + [s[k]];
      FilterAppend(q, init, [s[k]]);
      assert [s[k]][1..] == [];
      FilterCount(q, init);
      MatchPositionsSnoc(q, init, s[k]);
      assert k !in MatchPositions(q, init);
    }
  }

  /** The filtered pre-order of the first `i + 1` children extends that of the first `i`. */
  lemma FilterChildrenStep(q: Query, head: seq<SensorNode>, cs: seq<SensorNode>, i: nat)
    requires i < |cs|
    ensures (head + Filter(q, PreOrderAll(cs[..i]))) + Filter(q, PreOrder(cs[i]))
         == head + Filter(q, PreOrderAll(cs[..i + 1]))
  {
    PreOrderAllSnoc(cs, i);
    FilterAppend(q, PreOrderAll(cs[..i]), PreOrder(cs[i]));
  }

  /** The filtered pre-order of a node with children: the root's part, then its children's. */
  lemma FilterRoot(q: Query, n: SensorNode)
    requires n.children.Nodes?
    ensures Filter(q, PreOrder(n)) == Filter(q, [n]) + Filter(q, PreOrderAll(n.children.nodes))
  {
    FilterAppend(q, [n], PreOrderAll(n.children.nodes));
  }

  /**
   * getSensorsByType: the root when its `Type` matches, followed by the
   * results of each child's subtree, left to right.
   */
  method GetSensorsByType(t: string, data: SensorNode) returns (results: seq<SensorNode>)
    ensures results == Filter(ByType(t), PreOrder(data))
    ensures data.children.Missing? ==> results == if data.sensorType == Some(t) then [data] else []
    decreases data
  {
    ghost var q := ByType(t);
    results := [];
    if data.sensorType == Some(t) {
      results := results + [data];
    }
    ghost var head := Filter(q, [data]);
    assert [data][1..] == [];
    assert results == head;
    if data.children.Nodes? {
      var cs := data.children.nodes;
      for i := 0 to |cs|
        invariant results == head + Filter(q, PreOrderAll(cs[..i]))
      {
        var found := GetSensorsByType(t, cs[i]);
        FilterChildrenStep(q, head, cs, i);
        results := results + found;
      }
      assert cs[..|cs|] == cs;
      assert results == head + Filter(q, PreOrderAll(cs));
      FilterRoot(q, data);
    }
  }

  /**
   * What getSensorsByType returns, stated on the tree: every node of the
   * tree whose `Type` matches and nothing else, one entry per matching
   * position of the pre-order, and nothing at all when no node matches.
   */
  lemma SensorsByTypeSpec(t: string, data: SensorNode)
    ensures forall i :: 0 <= i < |Filter(ByType(t), PreOrder(data))| ==> Filter(ByType(t), PreOrder(data))[i].sensorType == Some(t)
    ensures forall m :: m in Filter(ByType(t), PreOrder(data)) <==> InTree(m, data) && m.sensorType == Some(t)
    ensures |Filter(ByType(t), PreOrder(data))| == |MatchPositions(ByType(t), PreOrder(data))|
    ensures (forall m :: InTree(m, data) ==> m.sensorType != Some(t)) ==> Filter(ByType(t), PreOrder(data)) == []
  {
    var q := ByType(t);
    var r := Filter(q, PreOrder(data));
    FilterCount(q, PreOrder(data));
    forall m
      ensures m in r <==> InTree(m, data) && m.sensorType == Some(t)
    {
      FilterMembers(q, PreOrder(data), m);
      PreOrderIsTree(m, data);
    }
    if r != [] {
      assert r[0] in r;
    }
  }

  /** The fallback node has no sensors and is found only by its own name. */
  lemma ErrorNodeIsEmpty(id: string, t: string)
    ensures FindSensorById(id, ErrorNode).None?
    ensures Filter(ByType(t), PreOrder(ErrorNode)) == []
    ensures GetComponentByName("Error", ErrorNode) == Some(ErrorNode)
  {
  }
}
