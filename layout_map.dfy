/**
 * The layout map of the system model: which model layout element
 * visualizes which kernel object. An entry is made by a first-match search
 * through the layout elements of a visual layout.
 */
module LayoutMaps {
  import opened Wrappers
  import opened Sequences

  /** A kernel object reference; references are compared with `equals`. */
  type ObjectRef = nat

  /**
   * A model layout element, reduced to its identity (`id` stands for the Java
   * object) and the kernel object it visualizes (None for null).
   */
  datatype LayoutElement = ModelLayoutElement(id: nat, visualizedObject: Option<ObjectRef>)

  /** A visual layout; its set of layout elements is given in its iteration order. */
  datatype VisualLayout = VisualLayout(layoutElements: seq<LayoutElement>)

  /** `Objects.equals(element.getVisualizedObject(), reference)` for a non-null reference. */
  function Visualizes(reference: ObjectRef): LayoutElement -> bool
  {
    (e: LayoutElement) => e.visualizedObject == Some(reference)
  }

  /** `m` and `m'` agree on `x`: both lack it, or both map it to the same element. */
  ghost predicate SameEntry(m: map<ObjectRef, LayoutElement>, m': map<ObjectRef, LayoutElement>, x: ObjectRef)
  {
    (x in m <==> x in m') && (x in m ==> m[x] == m'[x])
  }

  /**
   * The layout map after one mapping step for `reference`: it maps
   * `reference` to the first element that visualizes it, or is unchanged when
   * no element does; no other reference is touched.
   */
  function MapElement(m: map<ObjectRef, LayoutElement>, reference: ObjectRef, elements: seq<LayoutElement>)
    : (m': map<ObjectRef, LayoutElement>)
    ensures m.Keys <= m'.Keys
    ensures forall x :: x != reference ==> SameEntry(m, m', x)
    ensures (exists i :: 0 <= i < |elements| && elements[i].visualizedObject == Some(reference))
            ==> reference in m' && m'[reference].visualizedObject == Some(reference)
    ensures (forall i :: 0 <= i < |elements| ==> elements[i].visualizedObject != Some(reference))
            ==> m' == m
    ensures forall i :: 0 <= i < |elements| && elements[i].visualizedObject == Some(reference) &&
                        (forall j :: 0 <= j < i ==> elements[j].visualizedObject != Some(reference))
                        ==> reference in m' && m'[reference] == elements[i]
  {
    match FindFirst(elements, Visualizes(reference))
    case Some(e) => m[reference := e]
    case None => m
  }

  /**
   * The search stops at the first match: of two distinct elements that both
   * visualize `reference`, the one listed first is stored, so the order of
   * the layout's elements decides which object the map holds.
   */
  lemma MapElementFirstMatch(m: map<ObjectRef, LayoutElement>, reference: ObjectRef, a: LayoutElement, b: LayoutElement)
    requires a.visualizedObject == Some(reference) && b.visualizedObject == Some(reference) && a != b
    ensures reference in MapElement(m, reference, [a, b]) && MapElement(m, reference, [a, b])[reference] == a
    ensures reference in MapElement(m, reference, [b, a]) && MapElement(m, reference, [b, a])[reference] == b
    ensures MapElement(m, reference, [a, b]) != MapElement(m, reference, [b, a])
  {
    assert [a, b][0] == a;
    assert [b, a][0] == b;
  }

  /**
   * The layout map after one mapping step for each reference of `refs`, in
   * order: no entry is removed, and only references of `refs` gain one.
   */
  function MapElements(m: map<ObjectRef, LayoutElement>, refs: seq<ObjectRef>, elements: seq<LayoutElement>)
    : (r: map<ObjectRef, LayoutElement>)
    ensures m.Keys <= r.Keys
    ensures forall x :: x in r && x !in m ==> x in refs
    decreases refs
  {
    if refs == [] then m else MapElements(MapElement(m, refs[0], elements), refs[1..], elements)
  }

  /** Mapping `a` and then `b` is mapping `a + b`. */
  lemma {:induction false} MapElementsAppend(m: map<ObjectRef, LayoutElement>, a: seq<ObjectRef>, b: seq<ObjectRef>,
                                             elements: seq<LayoutElement>)
    ensures MapElements(m, a + b, elements) == MapElements(MapElements(m, a, elements), b, elements)
    decreases a
  {
    if a == [] {
      assert a + b == b;
    } else {
      assert (a + b)[0] == a[0];
      assert (a + b)[1..] == a[1..] + b;
      MapElementsAppend(MapElement(m, a[0], elements), a[1..], b, elements);
    }
  }

  /** One more reference at the end: how a loop over the references proceeds. */
  lemma MapElementsSnoc(m: map<ObjectRef, LayoutElement>, refs: seq<ObjectRef>, x: ObjectRef,
                        elements: seq<LayoutElement>)
    ensures MapElements(m, refs + [x], elements) == MapElement(MapElements(m, refs, elements), x, elements)
  {
    MapElementsAppend(m, refs, [x], elements);
    assert [x][1..] == [];
  }

  /**
   * Where one mapping step for `x` leaves `m'` relative to `m`: mapped to the
   * first element that visualizes `x`, or, when there is none, as it was.
   */
  ghost predicate Settled(m: map<ObjectRef, LayoutElement>, m': map<ObjectRef, LayoutElement>,
                          elements: seq<LayoutElement>, x: ObjectRef)
  {
    match FindFirst(elements, Visualizes(x))
    case Some(e) => x in m' && m'[x] == e
    case None => SameEntry(m, m', x)
  }

  /**
   * What mapping a list of references does to the layout map: no entry is
   * ever removed; a reference not in the list keeps its entry (or its lack of
   * one); a reference in the list ends up mapped to the first element that
   * visualizes it, whatever the order and repetitions of the list, or keeps
   * its entry when no element visualizes it.
   */
  lemma {:induction false} MapElementsSpec(m: map<ObjectRef, LayoutElement>, refs: seq<ObjectRef>,
                                           elements: seq<LayoutElement>)
    ensures m.Keys <= MapElements(m, refs, elements).Keys
    ensures forall x :: x !in refs ==> SameEntry(m, MapElements(m, refs, elements), x)
    ensures forall x :: x in refs ==> Settled(m, MapElements(m, refs, elements), elements, x)
    decreases refs
  {
    if refs != [] {
      var m1 := MapElement(m, refs[0], elements);
      MapElementsSpec(m1, refs[1..], elements);
      var r := MapElements(m, refs, elements);
      assert r == MapElements(m1, refs[1..], elements);
      forall x
        ensures x !in refs ==> SameEntry(m, r, x)
        ensures x in refs ==> Settled(m, r, elements, x)
      {
        if x != refs[0] {
          assert SameEntry(m, m1, x);
          if x in refs {
            assert x in refs[1..];
            assert Settled(m1, r, elements, x);
          } else {
            assert x !in refs[1..];
            assert SameEntry(m1, r, x);
          }
        } else if x in refs[1..] {
          assert Settled(m1, r, elements, x);
        } else {
          assert SameEntry(m1, r, x);
        }
      }
    }
  }
}
