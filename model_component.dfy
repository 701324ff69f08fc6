/**
 * Model components of the plant-overview model tree (the composite pattern):
 * what a component is, the tests the system model filters by, flattening a
 * composite down to its leaves, and adding a child to a composite that may be
 * referenced from several places.
 */
module ModelComponents {
  import opened Wrappers
  import opened Sequences

  /** Object identity of a component: two Java references are `==` exactly when their ids are. */
  type Id = nat

  /** The Java class of a component; `isInstance` and `instanceof` become a test of this tag. */
  datatype Kind =
    | VehicleModel
    | LayoutModel
    | PointModel
    | PathModel
    | LocationModel
    | LocationTypeModel
    | LinkModel
    | BlockModel
    | GroupModel
    | StaticRouteModel
    | OtherGraphicalElement
    | SimpleFolder

  /**
   * A model component.
   * `composite` tells whether its class is a CompositeModelComponent;
   * `locationType` is, for a location, the identity of its location type (None for null);
   * `location` is, for a link, the location it connects (None for null).
   */
  datatype Component = Component(
    id: Id,
    kind: Kind,
    name: string,
    composite: bool,
    children: seq<Component>,
    locationType: Option<Id>,
    location: Option<Component>)

  /** `classType.isInstance(c)` / `c instanceof K`. */
  function OfKind(k: Kind): Component -> bool
  {
    (c: Component) => c.kind == k
  }

  /** `c.getName().equals(name)`. */
  function Named(name: string): Component -> bool
  {
    (c: Component) => c.name == name
  }

  /** `c.getLocationType() == t`: identity of the location type, null included. */
  function HasLocationType(t: Option<Id>): Component -> bool
  {
    (c: Component) => c.locationType == t
  }

  /** `c.getLocation().getLocationType() == t` for a link whose location is set. */
  function LinksLocationOfType(t: Option<Id>): Component -> bool
  {
    (c: Component) => c.location.Some? && c.location.value.locationType == t
  }

  // ---------------------------------------------------------------------------
  // Flattening a composite

  /**
   * The components of `cs`, each composite one replaced by the flattening of
   * its children: the non-composite components reachable from `cs`, depth first.
   */
  function Flatten(cs: seq<Component>): (r: seq<Component>)
    ensures forall x :: x in r ==> !x.composite
    decreases cs
  {
    if cs == [] then []
    else (if cs[0].composite then Flatten(cs[0].children) else [cs[0]]) + Flatten(cs[1..])
  }

  /** `x` is a non-composite component reached from `cs` through composite components only. */
  ghost predicate ReachableLeaf(cs: seq<Component>, x: Component)
    decreases cs
  {
    exists i :: 0 <= i < |cs| && (if cs[i].composite then ReachableLeaf(cs[i].children, x) else cs[i] == x)
  }

  /** What a single component contributes. */
  lemma FlattenSingleton(c: Component)
    ensures Flatten([c]) == if c.composite then Flatten(c.children) else [c]
  {
    assert [c][1..] == [];
  }

  lemma {:induction false} FlattenAppend(a: seq<Component>, b: seq<Component>)
    ensures Flatten(a + b) == Flatten(a) + Flatten(b)
  {
    if a == [] {
      assert a + b == b;
    } else {
      AppendHead(a, b);
      FlattenAppend(a[1..], b);
    }
  }

  /** Appending one component: how a loop that collects the leaves proceeds. */
  lemma FlattenSnoc(s: seq<Component>, c: Component)
    ensures Flatten(s + [c]) == Flatten(s) + (if c.composite then Flatten(c.children) else [c])
  {
    FlattenAppend(s, [c]);
    FlattenSingleton(c);
  }

  /** Flatten(s) splits around any one of the components of `s`. */
  lemma FlattenSplit(s: seq<Component>, k: nat)
    requires k < |s|
    ensures Flatten(s) == Flatten(s[..k]) + Flatten([s[k]]) + Flatten(s[k + 1..])
  {
    SplitAt(s, k);
    FlattenAppend(s[..k] + [s[k]], s[k + 1..]);
    FlattenAppend(s[..k], [s[k]]);
  }

  /** A leaf contributed by the component `c` at position `k` of `s` is in the flattening of `s`. */
  lemma FlattenHasPart(s: seq<Component>, k: nat, c: Component, x: Component)
    requires k < |s| && s[k] == c && x in Flatten([c])
    ensures x in Flatten(s)
  {
    FlattenSplit(s, k);
  }

  /** Flattening lists exactly the reachable leaves: both directions. */
  lemma {:induction false} FlattenReachable(cs: seq<Component>, x: Component)
    ensures x in Flatten(cs) <==> ReachableLeaf(cs, x)
    decreases cs
  {
    if cs == [] {
    } else {
      var c := cs[0];
      FlattenReachable(cs[1..], x);
      if c.composite {
        FlattenReachable(c.children, x);
      }
      var head := if c.composite then Flatten(c.children) else [c];
      var headHas := if c.composite then ReachableLeaf(c.children, x) else c == x;
      assert x in head <==> headHas;
      assert Flatten(cs) == head + Flatten(cs[1..]);
      if ReachableLeaf(cs, x) {
        var i :| 0 <= i < |cs| && (if cs[i].composite then ReachableLeaf(cs[i].children, x) else cs[i] == x);
        if i > 0 {
          assert cs[1..][i - 1] == cs[i];
          assert ReachableLeaf(cs[1..], x);
        }
      }
      if ReachableLeaf(cs[1..], x) {
        var i :| 0 <= i < |cs[1..]| && (if cs[1..][i].composite then ReachableLeaf(cs[1..][i].children, x) else cs[1..][i] == x);
        assert cs[i + 1] == cs[1..][i];
      }
    }
  }

  /** A list made only of leaves flattens to itself. */
  lemma {:induction false} FlattenLeaves(cs: seq<Component>)
    requires forall c :: c in cs ==> !c.composite
    ensures Flatten(cs) == cs
  {
    if cs != [] {
      FlattenLeaves(cs[1..]);
    }
  }

  /** Listing the same components in another order lists the same leaves, as often. */
  lemma {:induction false} FlattenPermutation(a: seq<Component>, b: seq<Component>)
    requires multiset(a) == multiset(b)
    ensures multiset(Flatten(a)) == multiset(Flatten(b))
    decreases |a|
  {
    if a == [] {
      assert |b| == |multiset(b)| == 0;
    } else {
      var j := PermutationHead(a, b);
      FlattenPermutation(a[1..], b[..j] + b[j + 1..]);
      FlattenSplit(b, j);
      FlattenAppend(b[..j], b[j + 1..]);
      ConsSplit(a);
      FlattenAppend([a[0]], a[1..]);
    }
  }

  /**
   * When one component of `s` is also a child of another composite component
   * of `s`, every leaf under it is listed at least twice.
   */
  lemma FlattenCountsNestedTwice(s: seq<Component>, i: nat, j: nat, x: Component)
    requires i < |s| && j < |s| && i != j
    requires s[i].composite && s[j].composite && s[j] in s[i].children
    requires x in Flatten(s[j].children)
    ensures multiset(Flatten(s))[x] >= 2
  {
    FlattenLeafBelow(s[i], s[j], x);
    var lo, hi := if i < j then i else j, if i < j then j else i;
    FlattenHasPart(s[..hi], lo, s[lo], x);
    TwoOccurrences(Flatten(s[..hi]), Flatten([s[hi]]), Flatten(s[hi + 1..]), x);
    FlattenSplit(s, hi);
  }

  /** A leaf under a composite child `d` of `c` is contributed both by `d` and by `c`. */
  lemma FlattenLeafBelow(c: Component, d: Component, x: Component)
    requires c.composite && d.composite && d in c.children
    requires x in Flatten(d.children)
    ensures x in Flatten([d]) && x in Flatten([c])
  {
    var k := IndexOf(c.children, d);
    FlattenSingleton(d);
    FlattenHasPart(c.children, k, d, x);
    FlattenSingleton(c);
  }

  // ---------------------------------------------------------------------------
  // Adding a child to a composite that is referenced from several places

  /** Some component in the tree of `c` (itself included) has identity `id`. */
  ghost predicate HasId(c: Component, id: Id)
    decreases c
  {
    c.id == id || exists i :: 0 <= i < |c.children| && HasId(c.children[i], id)
  }

  /**
   * `parent.add(child)` as seen through the value `c`: every copy of the
   * parent (a node with identity `parentId`) in the tree of `c` gets `child`
   * appended to its children; nothing else changes.
   */
  function AddChild(c: Component, parentId: Id, child: Component): (r: Component)
    ensures r == c.(children := r.children)
    ensures |r.children| == |c.children| + (if c.id == parentId then 1 else 0)
    ensures c.id == parentId ==> r.children[|c.children|] == child
    decreases c
  {
    var kids := seq(|c.children|, i requires 0 <= i < |c.children| => AddChild(c.children[i], parentId, child));
    c.(children := if c.id == parentId then kids + [child] else kids)
  }

  /** `c` is a copy of the parent `id`, and no copy of it sits anywhere below. */
  ghost predicate SoleCopy(c: Component, id: Id)
  {
    c.id == id && forall i :: 0 <= i < |c.children| ==> !HasId(c.children[i], id)
  }

  /**
   * AddChild on every component of a list: the list keeps its length, a
   * component that holds no copy of the parent is unchanged, and a sole copy
   * of the parent gets exactly the child appended.
   */
  function AddChildAll(cs: seq<Component>, parentId: Id, child: Component): (r: seq<Component>)
    ensures |r| == |cs|
    ensures forall i :: 0 <= i < |cs| && !HasId(cs[i], parentId) ==> r[i] == cs[i]
    ensures forall i :: 0 <= i < |cs| && SoleCopy(cs[i], parentId) ==>
              r[i] == cs[i].(children := cs[i].children + [child])
  {
    AddChildEffect(parentId, child);
    seq(|cs|, i requires 0 <= i < |cs| => AddChild(cs[i], parentId, child))
  }

  /**
   * AddChild on every value of a table: the table keeps its keys, a value
   * that holds no copy of the parent is unchanged, and a sole copy of the
   * parent gets exactly the child appended.
   */
  function AddChildIn<K>(m: map<K, Component>, parentId: Id, child: Component): (r: map<K, Component>)
    ensures r.Keys == m.Keys
    ensures forall k :: k in m && !HasId(m[k], parentId) ==> r[k] == m[k]
    ensures forall k :: k in m && SoleCopy(m[k], parentId) ==>
              r[k] == m[k].(children := m[k].children + [child])
  {
    AddChildEffect(parentId, child);
    map k | k in m :: AddChild(m[k], parentId, child)
  }

  /** AddChildAbsent and AddChildAtParent, for every component at once. */
  lemma AddChildEffect(parentId: Id, child: Component)
    ensures forall c :: !HasId(c, parentId) ==> AddChild(c, parentId, child) == c
    ensures forall c :: SoleCopy(c, parentId) ==> AddChild(c, parentId, child) == c.(children := c.children + [child])
  {
    forall c | !HasId(c, parentId)
      ensures AddChild(c, parentId, child) == c
    {
      AddChildAbsent(c, parentId, child);
    }
    forall c | SoleCopy(c, parentId)
      ensures AddChild(c, parentId, child) == c.(children := c.children + [child])
    {
      AddChildAtParent(c, child);
    }
  }

  /** A tree that does not contain the parent is left as it is. */
  lemma {:induction false} AddChildAbsent(c: Component, parentId: Id, child: Component)
    requires !HasId(c, parentId)
    ensures AddChild(c, parentId, child) == c
    decreases c
  {
    var r := AddChild(c, parentId, child);
    forall i | 0 <= i < |c.children|
      ensures r.children[i] == c.children[i]
    {
      AddChildAbsent(c.children[i], parentId, child);
    }
    assert r.children == c.children;
  }

  /** The parent itself, holding no other copy of itself, gets exactly one new last child. */
  lemma AddChildAtParent(c: Component, child: Component)
    requires forall i :: 0 <= i < |c.children| ==> !HasId(c.children[i], c.id)
    ensures AddChild(c, c.id, child) == c.(children := c.children + [child])
  {
    var r := AddChild(c, c.id, child);
    forall i | 0 <= i < |c.children|
      ensures r.children[i] == c.children[i]
    {
      AddChildAbsent(c.children[i], c.id, child);
    }
    assert r.children == c.children + [child];
  }
}
