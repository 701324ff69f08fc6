/**
 * The system model of the plant overview: the registry of main folders
 * (one per folder key), the table from component class to the folder such
 * components belong in, the layout map, and the typed queries over the
 * folders' children.
 *
 * The model is itself a composite component whose children are the
 * VEHICLES and LAYOUT folders; the other nine main folders sit inside the
 * LAYOUT folder.
 */
module SystemModels {
  import opened Wrappers
  import opened Sequences
  import opened ModelComponents
  import opened LayoutMaps

  /** The top-level categories of the model. */
  datatype FolderKey =
    | Vehicles
    | Layout
    | Points
    | Paths
    | Locations
    | LocationTypes
    | Links
    | Blocks
    | Groups
    | StaticRoutes
    | OtherGraphicalElements

  /** The main folders created inside the LAYOUT folder, in creation order. */
  const LayoutSubfolderKeys: seq<FolderKey> :=
    [Points, Paths, Locations, LocationTypes, Links, Blocks, Groups, StaticRoutes, OtherGraphicalElements]

  /** The name given to the layout model created with the system model. */
  const LayoutName: string := "VLayout-1"

  /** The folder registered for each component class; none for a plain folder. */
  function FolderFor(k: Kind): (r: Option<FolderKey>)
    ensures r.None? <==> k == SimpleFolder
  {
    match k
    case VehicleModel => Some(Vehicles)
    case LayoutModel => Some(Layout)
    case PointModel => Some(Points)
    case PathModel => Some(Paths)
    case LocationModel => Some(Locations)
    case LocationTypeModel => Some(LocationTypes)
    case LinkModel => Some(Links)
    case BlockModel => Some(Blocks)
    case GroupModel => Some(Groups)
    case StaticRouteModel => Some(StaticRoutes)
    case OtherGraphicalElement => Some(OtherGraphicalElements)
    case SimpleFolder => None
  }

  /**
   * The class table pairs the eleven element classes one-to-one with the
   * eleven folder keys: every key is the folder of one class, and of no other.
   */
  lemma FolderForOneToOne()
    ensures forall key :: exists k :: FolderFor(k) == Some(key)
    ensures forall k1, k2 :: FolderFor(k1).Some? && FolderFor(k1) == FolderFor(k2) ==> k1 == k2
  {
    forall key
      ensures exists k :: FolderFor(k) == Some(key)
    {
      var k := match key
        case Vehicles => VehicleModel
        case Layout => LayoutModel
        case Points => PointModel
        case Paths => PathModel
        case Locations => LocationModel
        case LocationTypes => LocationTypeModel
        case Links => LinkModel
        case Blocks => BlockModel
        case Groups => GroupModel
        case StaticRoutes => StaticRouteModel
        case OtherGraphicalElements => OtherGraphicalElement;
      assert FolderFor(k) == Some(key);
    }
  }

  /** The main folders in the order the model creates them. */
  const CreationOrder: seq<FolderKey> := [Vehicles, Layout] + LayoutSubfolderKeys

  /** The position of `key` in CreationOrder. */
  function CreationIndex(key: FolderKey): (i: nat)
    ensures i < |CreationOrder| && CreationOrder[i] == key
  {
    match key
    case Vehicles => 0
    case Layout => 1
    case Points => 2
    case Paths => 3
    case Locations => 4
    case LocationTypes => 5
    case Links => 6
    case Blocks => 7
    case Groups => 8
    case StaticRoutes => 9
    case OtherGraphicalElements => 10
  }

  /** The identity of the folder object created for `key` when the model is built. */
  function FolderId(key: FolderKey): Id
  {
    CreationIndex(key) + 1
  }

  /** A new, empty folder for `key`, titled by the resource bundle `title`. */
  function NewSimpleFolder(key: FolderKey, title: FolderKey -> string): Component
  {
    Component(FolderId(key), SimpleFolder, title(key), true, [], None, None)
  }

  /** The layout model created for the LAYOUT folder, holding `kids`. */
  function NewLayoutModel(kids: seq<Component>): (r: Component)
    ensures r.kind == LayoutModel && r.name == LayoutName && r.composite && r.children == kids
    ensures r.id == FolderId(Layout)
  {
    Component(FolderId(Layout), LayoutModel, LayoutName, true, kids, None, None)
  }

  /** The first `n` folders created inside the LAYOUT folder. */
  function LayoutSubfolders(n: nat, title: FolderKey -> string): (r: seq<Component>)
    requires n <= |LayoutSubfolderKeys|
  {
    seq(n, i requires 0 <= i < n => NewSimpleFolder(LayoutSubfolderKeys[i], title))
  }

  /**
   * `m` is the main-folder table once VEHICLES, LAYOUT and the first `n`
   * layout folders are created: it has exactly those keys, LAYOUT holds the
   * layout model with those `n` folders, and every other key its new folder.
   */
  ghost predicate FolderTableAt(n: nat, title: FolderKey -> string, m: map<FolderKey, Component>)
    requires n <= |LayoutSubfolderKeys|
  {
    && (forall k :: k in m <==> CreationIndex(k) < n + 2)
    && (forall k :: k in m && k != Layout ==> m[k] == NewSimpleFolder(k, title))
    && m[Layout] == NewLayoutModel(LayoutSubfolders(n, title))
  }

  /** The `n`-th layout folder is created `n + 2`-th. */
  lemma LayoutSubfolderIndex(n: nat)
    requires n < |LayoutSubfolderKeys|
    ensures CreationIndex(LayoutSubfolderKeys[n]) == n + 2
  {
    assert CreationOrder[n + 2] == LayoutSubfolderKeys[n];
  }

  /** The model's own children once VEHICLES, LAYOUT and the first `n` layout folders are created. */
  function RootAfter(n: nat, title: FolderKey -> string): seq<Component>
    requires n <= |LayoutSubfolderKeys|
  {
    [NewSimpleFolder(Vehicles, title), NewLayoutModel(LayoutSubfolders(n, title))]
  }

  /** A folder created for a key other than LAYOUT does not contain the LAYOUT folder. */
  lemma NotLayoutFolder(key: FolderKey, title: FolderKey -> string)
    requires key != Layout
    ensures !HasId(NewSimpleFolder(key, title), FolderId(Layout))
  {
  }

  /**
   * The LAYOUT folder is the only copy of itself in its tree, and appending
   * the next layout folder to its children gives the LAYOUT folder with one
   * more layout folder.
   */
  lemma AddToLayoutModel(n: nat, title: FolderKey -> string)
    requires n < |LayoutSubfolderKeys|
    ensures SoleCopy(NewLayoutModel(LayoutSubfolders(n, title)), FolderId(Layout))
    ensures var layout := NewLayoutModel(LayoutSubfolders(n, title));
            layout.(children := layout.children + [NewSimpleFolder(LayoutSubfolderKeys[n], title)])
            == NewLayoutModel(LayoutSubfolders(n + 1, title))
  {
    var kids := LayoutSubfolders(n, title);
    var f := NewSimpleFolder(LayoutSubfolderKeys[n], title);
    forall i | 0 <= i < |kids|
      ensures !HasId(kids[i], FolderId(Layout))
    {
      NotLayoutFolder(LayoutSubfolderKeys[i], title);
    }
    assert kids + [f] == LayoutSubfolders(n + 1, title);
  }

  /**
   * Creating the next folder inside LAYOUT: registering it and then adding
   * it to every copy of the LAYOUT folder in the table gives the table with
   * one more layout folder.
   */
  lemma CreateLayoutSubfolderStep(n: nat, title: FolderKey -> string, m: map<FolderKey, Component>)
    requires n < |LayoutSubfolderKeys| && FolderTableAt(n, title, m)
    ensures FolderTableAt(n + 1, title,
                          AddChildIn(m[LayoutSubfolderKeys[n] := NewSimpleFolder(LayoutSubfolderKeys[n], title)],
                                     FolderId(Layout), NewSimpleFolder(LayoutSubfolderKeys[n], title)))
  {
    var key := LayoutSubfolderKeys[n];
    var f := NewSimpleFolder(key, title);
    var r := AddChildIn(m[key := f], FolderId(Layout), f);
    LayoutSubfolderIndex(n);
    assert forall k :: k in r <==> CreationIndex(k) < n + 3;
    CreateLayoutSubfolderOthers(title, m, key, r);
    CreateLayoutSubfolderLayout(n, title, m, r);
  }

  /** Adding to LAYOUT leaves every other freshly created folder of the table as it is. */
  lemma CreateLayoutSubfolderOthers(title: FolderKey -> string, m: map<FolderKey, Component>, key: FolderKey,
                                    r: map<FolderKey, Component>)
    requires key != Layout
    requires forall k :: k in m && k != Layout ==> m[k] == NewSimpleFolder(k, title)
    requires r == AddChildIn(m[key := NewSimpleFolder(key, title)], FolderId(Layout), NewSimpleFolder(key, title))
    ensures forall k :: k in r && k != Layout ==> r[k] == NewSimpleFolder(k, title)
  {
    var m' := m[key := NewSimpleFolder(key, title)];
    forall k | k in r && k != Layout
      ensures r[k] == NewSimpleFolder(k, title)
    {
      assert m'[k] == NewSimpleFolder(k, title);
      NotLayoutFolder(k, title);
    }
  }

  /** Adding the next layout folder to LAYOUT gives the LAYOUT folder with one more layout folder. */
  lemma CreateLayoutSubfolderLayout(n: nat, title: FolderKey -> string, m: map<FolderKey, Component>,
                                    r: map<FolderKey, Component>)
    requires n < |LayoutSubfolderKeys|
    requires Layout in m && m[Layout] == NewLayoutModel(LayoutSubfolders(n, title))
    requires r == AddChildIn(m[LayoutSubfolderKeys[n] := NewSimpleFolder(LayoutSubfolderKeys[n], title)],
                             FolderId(Layout), NewSimpleFolder(LayoutSubfolderKeys[n], title))
    ensures r[Layout] == NewLayoutModel(LayoutSubfolders(n + 1, title))
  {
    LayoutSubfolderIndex(n);
    var m' := m[LayoutSubfolderKeys[n] := NewSimpleFolder(LayoutSubfolderKeys[n], title)];
    assert Layout in m' && m'[Layout] == m[Layout];
    AddToLayoutModel(n, title);
  }

  /** Creating the next folder inside LAYOUT: the model's children afterwards. */
  lemma CreateLayoutSubfolderRoot(n: nat, title: FolderKey -> string)
    requires n < |LayoutSubfolderKeys|
    ensures AddChildAll(RootAfter(n, title), FolderId(Layout), NewSimpleFolder(LayoutSubfolderKeys[n], title))
            == RootAfter(n + 1, title)
  {
    var r := AddChildAll(RootAfter(n, title), FolderId(Layout), NewSimpleFolder(LayoutSubfolderKeys[n], title));
    AddToLayoutModel(n, title);
    NotLayoutFolder(Vehicles, title);
    assert r[0] == NewSimpleFolder(Vehicles, title);
    assert r[1] == NewLayoutModel(LayoutSubfolders(n + 1, title));
  }

  /** Before any layout folder exists, the table holds VEHICLES and the empty LAYOUT folder. */
  lemma FolderTableStart(title: FolderKey -> string)
    ensures FolderTableAt(0, title, map[Vehicles := NewSimpleFolder(Vehicles, title), Layout := NewLayoutModel([])])
    ensures RootAfter(0, title) == [NewSimpleFolder(Vehicles, title), NewLayoutModel([])]
  {
    assert LayoutSubfolders(0, title) == [];
  }

  /** The part of the system model's state that creating the main folders builds. */
  datatype FolderState = FolderState(
    mainFolders: map<FolderKey, Component>,
    children: seq<Component>,
    parentFolders: map<Kind, Component>)

  /**
   * The state reached by creating VEHICLES and LAYOUT in the model and then
   * the first `n` layout folders in LAYOUT, each registered as a main folder
   * and added to every copy of the LAYOUT folder.
   */
  ghost function CreatedState(n: nat, title: FolderKey -> string): FolderState
    requires n <= |LayoutSubfolderKeys|
    decreases n
  {
    if n == 0 then
      FolderState(map[Vehicles := NewSimpleFolder(Vehicles, title), Layout := NewLayoutModel([])],
                  [NewSimpleFolder(Vehicles, title), NewLayoutModel([])], map[])
    else
      var s := CreatedState(n - 1, title);
      var key := LayoutSubfolderKeys[n - 1];
      var f := NewSimpleFolder(key, title);
      FolderState(AddChildIn(s.mainFolders[key := f], FolderId(Layout), f),
                  AddChildAll(s.children, FolderId(Layout), f),
                  AddChildIn(s.parentFolders, FolderId(Layout), f))
  }

  /**
   * What creating the folders leads to: after `n` layout folders the table
   * holds exactly the folders created so far, LAYOUT holds those `n` in
   * creation order, and the model's children are VEHICLES and LAYOUT.
   */
  lemma {:induction false} CreatedStateShape(n: nat, title: FolderKey -> string)
    requires n <= |LayoutSubfolderKeys|
    ensures FolderTableAt(n, title, CreatedState(n, title).mainFolders)
    ensures CreatedState(n, title).children == RootAfter(n, title)
    ensures CreatedState(n, title).parentFolders == map[]
    decreases n
  {
    if n == 0 {
      FolderTableStart(title);
    } else {
      var prev := CreatedState(n - 1, title);
      var f := NewSimpleFolder(LayoutSubfolderKeys[n - 1], title);
      var next := CreatedState(n, title);
      assert next.mainFolders == AddChildIn(prev.mainFolders[LayoutSubfolderKeys[n - 1] := f], FolderId(Layout), f);
      assert next.children == AddChildAll(prev.children, FolderId(Layout), f);
      assert next.parentFolders == AddChildIn(prev.parentFolders, FolderId(Layout), f);
      CreatedStateShape(n - 1, title);
      CreateLayoutSubfolderStep(n - 1, title, prev.mainFolders);
      CreateLayoutSubfolderRoot(n - 1, title);
    }
  }

  /** Distinct folder keys get distinct folder objects. */
  lemma FolderIdInjective(k1: FolderKey, k2: FolderKey)
    requires k1 != k2
    ensures FolderId(k1) != FolderId(k2)
  {
    assert CreationOrder[CreationIndex(k1)] == k1 && CreationOrder[CreationIndex(k2)] == k2;
  }

  /** Once all folders are created, every key has its main folder. */
  lemma CompleteFolderTableKeys(n: nat, title: FolderKey -> string, m: map<FolderKey, Component>)
    requires n == |LayoutSubfolderKeys| && FolderTableAt(n, title, m)
    ensures forall k :: k in m
  {
    forall k
      ensures k in m
    {
      assert CreationIndex(k) < n + 2;
    }
  }

  /** Once all folders are created, each folder object has its own identity. */
  lemma CompleteFolderTableIds(n: nat, title: FolderKey -> string, m: map<FolderKey, Component>)
    requires n == |LayoutSubfolderKeys| && FolderTableAt(n, title, m)
    ensures forall k :: k in m && m[k].id == FolderId(k)
    ensures forall k1, k2 :: k1 != k2 ==> m[k1].id != m[k2].id
  {
    CompleteFolderTableKeys(n, title, m);
    forall k1, k2 | k1 != k2
      ensures m[k1].id != m[k2].id
    {
      FolderIdInjective(k1, k2);
    }
  }

  /**
   * Once all folders are created, LAYOUT holds the nine layout folders in
   * creation order, the very folders the table registers for them.
   */
  lemma CompleteFolderTableLayout(n: nat, title: FolderKey -> string, m: map<FolderKey, Component>)
    requires n == |LayoutSubfolderKeys| && FolderTableAt(n, title, m)
    ensures forall k :: k in m
    ensures |m[Layout].children| == |LayoutSubfolderKeys|
    ensures forall i :: 0 <= i < |LayoutSubfolderKeys| ==> m[Layout].children[i] == m[LayoutSubfolderKeys[i]]
  {
    CompleteFolderTableKeys(n, title, m);
    forall i | 0 <= i < |LayoutSubfolderKeys|
      ensures m[Layout].children[i] == m[LayoutSubfolderKeys[i]]
    {
      LayoutSubfolderIndex(i);
    }
  }

  /**
   * The folders once all are created: every key has its folder, each folder
   * object its own identity, LAYOUT holds the nine layout folders in creation
   * order, the very folders the table registers for them, and the model's
   * children are the VEHICLES and LAYOUT folders.
   */
  ghost predicate FoldersCreated(m: map<FolderKey, Component>, children: seq<Component>, title: FolderKey -> string)
  {
    && (forall k :: k in m && m[k].id == FolderId(k))
    && (forall k :: k != Layout ==> m[k] == NewSimpleFolder(k, title))
    && m[Layout] == NewLayoutModel(m[Layout].children)
    && |m[Layout].children| == |LayoutSubfolderKeys|
    && (forall i :: 0 <= i < |LayoutSubfolderKeys| ==> m[Layout].children[i] == m[LayoutSubfolderKeys[i]])
    && children == [m[Vehicles], m[Layout]]
  }

  /** Creating the folders of all nine layout keys completes the folder table. */
  lemma CreatedStateComplete(n: nat, title: FolderKey -> string, s: FolderState)
    requires n == |LayoutSubfolderKeys| && s == CreatedState(n, title)
    ensures FoldersCreated(s.mainFolders, s.children, title) && s.parentFolders == map[]
  {
    CreatedStateShape(n, title);
    CompleteFolderTableIds(n, title, s.mainFolders);
    CompleteFolderTableLayout(n, title, s.mainFolders);
  }

  /** Where a created folder is added: to the model itself, or to a folder. */
  datatype Parent = ModelRoot | Folder(component: Component)

  /** `order` lists every key of `m` exactly once: how a hash table enumerates its entries. */
  ghost predicate Enumerates<K, V>(order: seq<K>, m: map<K, V>)
  {
    (forall k :: k in order ==> k in m) && multiset(order) == multiset(m.Keys)
  }

  /** The main folders that `m` holds for the keys of `order`, in that order. */
  function FolderValues(m: map<FolderKey, Component>, order: seq<FolderKey>): (r: seq<Component>)
    ensures |r| <= |order|
    ensures forall c :: c in r ==> c in m.Values
  {
    if order == [] then []
    else (if order[0] in m then [m[order[0]]] else []) + FolderValues(m, order[1..])
  }

  /** When `m` holds every key of `order`, one folder is listed per key. */
  lemma {:induction false} FolderValuesLength(m: map<FolderKey, Component>, order: seq<FolderKey>)
    requires forall k :: k in order ==> k in m
    ensures |FolderValues(m, order)| == |order|
  {
    if order != [] {
      FolderValuesLength(m, order[1..]);
    }
  }

  /** When `m` holds every key of `order`, the `i`-th folder listed is the one for the `i`-th key. */
  lemma {:induction false} FolderValuesAt(m: map<FolderKey, Component>, order: seq<FolderKey>, i: nat)
    requires forall k :: k in order ==> k in m
    requires i < |order|
    ensures |FolderValues(m, order)| == |order|
    ensures FolderValues(m, order)[i] == m[order[i]]
    decreases i
  {
    FolderValuesLength(m, order);
    if i > 0 {
      FolderValuesAt(m, order[1..], i - 1);
    }
  }

  lemma {:induction false} FolderValuesAppend(m: map<FolderKey, Component>, a: seq<FolderKey>, b: seq<FolderKey>)
    ensures FolderValues(m, a + b) == FolderValues(m, a) + FolderValues(m, b)
  {
    if a == [] {
      assert a + b == b;
    } else {
      AppendHead(a, b);
      FolderValuesAppend(m, a[1..], b);
    }
  }

  /** FolderValues(m, b) splits around any one of the keys of `b`. */
  lemma FolderValuesSplit(m: map<FolderKey, Component>, b: seq<FolderKey>, j: nat)
    requires j < |b|
    ensures FolderValues(m, b) == FolderValues(m, b[..j]) + FolderValues(m, [b[j]]) + FolderValues(m, b[j + 1..])
  {
    SplitAt(b, j);
    FolderValuesAppend(m, b[..j] + [b[j]], b[j + 1..]);
    FolderValuesAppend(m, b[..j], [b[j]]);
  }

  /** Enumerating the same keys in another order gives the same folders, as often. */
  lemma {:induction false} FolderValuesPermutation(m: map<FolderKey, Component>, a: seq<FolderKey>, b: seq<FolderKey>)
    requires multiset(a) == multiset(b)
    ensures multiset(FolderValues(m, a)) == multiset(FolderValues(m, b))
    decreases |a|
  {
    if a == [] {
      assert |b| == |multiset(b)| == 0;
    } else {
      var j := PermutationHead(a, b);
      FolderValuesPermutation(m, a[1..], b[..j] + b[j + 1..]);
      FolderValuesSplit(m, b, j);
      FolderValuesAppend(m, b[..j], b[j + 1..]);
      ConsSplit(a);
      FolderValuesAppend(m, [a[0]], a[1..]);
    }
  }

  /**
   * getAll() lists the same components, as often, whatever order the
   * main-folder table enumerates its values in.
   */
  lemma GetAllOrderIrrelevant(m: map<FolderKey, Component>, order1: seq<FolderKey>, order2: seq<FolderKey>)
    requires Enumerates(order1, m) && Enumerates(order2, m)
    ensures multiset(Flatten(FolderValues(m, order1))) == multiset(Flatten(FolderValues(m, order2)))
  {
    FolderValuesPermutation(m, order1, order2);
    FlattenPermutation(FolderValues(m, order1), FolderValues(m, order2));
  }

  /**
   * getAll() lists every leaf of a main folder that also sits inside the
   * LAYOUT folder at least twice: once through LAYOUT and once through its
   * own table entry.
   */
  lemma GetAllListsLayoutSubfolderLeavesTwice(m: map<FolderKey, Component>, order: seq<FolderKey>,
                                              key: FolderKey, x: Component)
    requires Enumerates(order, m)
    requires Layout in m && key in m && key != Layout
    requires m[Layout].composite && m[key].composite && m[key] in m[Layout].children
    requires x in Flatten(m[key].children)
    ensures multiset(Flatten(FolderValues(m, order)))[x] >= 2
  {
    assert Layout in multiset(order) && key in multiset(order);
    var i :| 0 <= i < |order| && order[i] == Layout;
    var j :| 0 <= j < |order| && order[j] == key;
    FolderValuesAt(m, order, i);
    FolderValuesAt(m, order, j);
    FlattenCountsNestedTwice(FolderValues(m, order), i, j, x);
  }

  /** The first component of `cs` named `name`, or None: the loop of each `get*Model(name)`. */
  method FindByName(cs: seq<Component>, name: string) returns (r: Option<Component>)
    ensures r == FindFirst(cs, Named(name))
  {
    for i := 0 to |cs|
      invariant forall j :: 0 <= j < i ==> cs[j].name != name
    {
      if cs[i].name == name {
        FindFirstAt(cs, Named(name), i);
        return Some(cs[i]);
      }
    }
    return None;
  }

  class StandardSystemModel {
    /** The model's own name: it is itself a composite component. */
    var name: string
    /** The model's own child components. */
    var children: seq<Component>
    /** The main folder registered for each folder key. */
    var mainFolders: map<FolderKey, Component>
    /** The folder that components of each class belong in. */
    var parentFolders: map<Kind, Component>
    /** The model layout element that visualizes each kernel object. */
    var layoutMap: map<ObjectRef, LayoutElement>

    /** Every folder key has a main folder. */
    ghost predicate Valid()
      reads this
    {
      forall key :: key in mainFolders
    }

    /**
     * Builds the model: the main folders (VEHICLES and LAYOUT in the model,
     * the other nine in LAYOUT) and the class-to-folder table. `title` gives
     * the localized folder titles.
     */
    constructor (title: FolderKey -> string)
      ensures Valid()
      ensures name == "Model" && layoutMap == map[]
      ensures children == [mainFolders[Vehicles], mainFolders[Layout]]
      ensures mainFolders[Layout].kind == LayoutModel && mainFolders[Layout].name == LayoutName
      ensures mainFolders[Layout].composite
      ensures |mainFolders[Layout].children| == |LayoutSubfolderKeys|
      ensures forall i :: 0 <= i < |LayoutSubfolderKeys| ==>
                mainFolders[Layout].children[i] == mainFolders[LayoutSubfolderKeys[i]]
      ensures forall k :: k in mainFolders && k != Layout ==> mainFolders[k] == NewSimpleFolder(k, title)
      ensures forall k1, k2 :: k1 in mainFolders && k2 in mainFolders && k1 != k2 ==>
                mainFolders[k1].id != mainFolders[k2].id
      ensures forall kind :: kind in parentFolders <==> FolderFor(kind).Some?
      ensures forall kind :: kind in parentFolders ==> parentFolders[kind] == mainFolders[FolderFor(kind).value]
    {
      name := "Model";
      children := [];
      mainFolders := map[];
      parentFolders := map[];
      layoutMap := map[];
      new;
      CreateMainFolders(title);
      SetupParentFolders();
    }

    /** Registers `component` as the main folder for `key`. */
    method AddMainFolder(key: FolderKey, component: Component)
      modifies this`mainFolders
      ensures mainFolders == old(mainFolders)[key := component]
      ensures GetMainFolder(key) == Some(component)
      ensures forall k :: k != key ==> GetMainFolder(k) == old(GetMainFolder(k))
      ensures old(Valid()) ==> Valid()
    {
      mainFolders := mainFolders[key := component];
    }

    /** The main folder registered for `key`, or None. */
    function GetMainFolder(key: FolderKey): (r: Option<Component>)
      reads this
      ensures r.Some? <==> key in mainFolders
      ensures r.Some? ==> r.value == mainFolders[key]
    {
      if key in mainFolders then Some(mainFolders[key]) else None
    }

    /**
     * The folder that `item` belongs in, or None for no item or an item of
     * an unregistered class. `classes` is the table's key set in the order
     * the table enumerates it.
     */
    method GetFolder(item: Option<Component>, classes: seq<Kind>) returns (folder: Option<Component>)
      requires forall k :: k in classes <==> k in parentFolders
      ensures item.None? ==> folder.None?
      ensures item.Some? && item.value.kind in parentFolders ==> folder == Some(parentFolders[item.value.kind])
      ensures item.Some? && item.value.kind !in parentFolders ==> folder.None?
    {
      if item.None? {
        return None;
      }
      for i := 0 to |classes|
        invariant forall j :: 0 <= j < i ==> classes[j] != item.value.kind
      {
        if item.value.kind == classes[i] {
          return Some(parentFolders[classes[i]]);
        }
      }
      return None;
    }

    /** The children of folder `key` of class `kind`, in order. */
    method GetAll(key: FolderKey, kind: Kind) returns (items: seq<Component>)
      requires key in mainFolders
      ensures items == Filter(mainFolders[key].children, OfKind(kind))
    {
      items := [];
      var cs := mainFolders[key].children;
      for i := 0 to |cs|
        invariant items == Filter(cs[..i], OfKind(kind))
      {
        FilterSnoc(cs[..i], cs[i], OfKind(kind));
        PrefixSnoc(cs, i);
        if cs[i].kind == kind {
          items := items + [cs[i]];
        }
      }
      PrefixAll(cs);
    }

    /**
     * Every leaf of every main folder, and each non-composite main folder
     * itself; `order` is the order in which the main-folder table enumerates
     * its values.
     */
    method GetAllComponents(order: seq<FolderKey>) returns (items: seq<Component>)
      requires Enumerates(order, mainFolders)
      ensures items == Flatten(FolderValues(mainFolders, order))
    {
      items := [];
      for i := 0 to |order|
        invariant items == Flatten(FolderValues(mainFolders, order[..i]))
      {
        var o := mainFolders[order[i]];
        PrefixSnoc(order, i);
        FolderValuesAppend(mainFolders, order[..i], [order[i]]);
        assert FolderValues(mainFolders, [order[i]]) == [o];
        FlattenSnoc(FolderValues(mainFolders, order[..i]), o);
        if o.composite {
          var leaves := CollectLeaves(o);
          items := items + leaves;
        } else {
          items := items + [o];
        }
      }
      PrefixAll(order);
    }

    /** All leaves under the composite `folder`, depth first. */
    method CollectLeaves(folder: Component) returns (result: seq<Component>)
      requires folder.composite
      ensures result == Flatten(folder.children)
      decreases folder
    {
      result := [];
      var cs := folder.children;
      for i := 0 to |cs|
        invariant result == Flatten(cs[..i])
      {
        var component := cs[i];
        PrefixSnoc(cs, i);
        FlattenSnoc(cs[..i], component);
        if component.composite {
          var leaves := CollectLeaves(component);
          result := result + leaves;
        } else {
          result := result + [component];
        }
      }
      PrefixAll(cs);
    }

    /** The children of folder `key`, each cast to class `kind`. */
    method ChildrenAs(key: FolderKey, kind: Kind) returns (items: seq<Component>)
      requires key in mainFolders
      requires forall c :: c in mainFolders[key].children ==> c.kind == kind
      ensures items == mainFolders[key].children
      ensures items == Filter(mainFolders[key].children, OfKind(kind))
    {
      items := [];
      var cs := mainFolders[key].children;
      for i := 0 to |cs|
        invariant items == cs[..i]
      {
        PrefixSnoc(cs, i);
        items := items + [cs[i]];
      }
      PrefixAll(cs);
      FilterAll(cs, OfKind(kind));
    }

    method GetVehicleModels() returns (items: seq<Component>)
      requires Vehicles in mainFolders
      requires forall c :: c in mainFolders[Vehicles].children ==> c.kind == VehicleModel
      ensures items == mainFolders[Vehicles].children
    {
      items := ChildrenAs(Vehicles, VehicleModel);
    }

    method GetVehicleModel(name: string) returns (r: Option<Component>)
      requires Vehicles in mainFolders
      requires forall c :: c in mainFolders[Vehicles].children ==> c.kind == VehicleModel
      ensures r == FindFirst(mainFolders[Vehicles].children, Named(name))
    {
      var vehicles := GetVehicleModels();
      r := FindByName(vehicles, name);
    }

    /** The LAYOUT folder, as the only layout model. */
    method GetLayoutModels() returns (items: seq<Component>)
      requires Layout in mainFolders && mainFolders[Layout].kind == LayoutModel
      ensures items == [mainFolders[Layout]]
    {
      items := [mainFolders[Layout]];
    }

    /** No layout model is ever found by name. */
    function GetLayoutModel(name: string): (r: Option<Component>)
      ensures r.None?
    {
      None
    }

    method GetPointModels() returns (items: seq<Component>)
      requires Points in mainFolders
      ensures items == Filter(mainFolders[Points].children, OfKind(PointModel))
    {
      items := GetAll(Points, PointModel);
    }

    method GetPointModel(name: string) returns (r: Option<Component>)
      requires Points in mainFolders
      ensures r == FindFirst(Filter(mainFolders[Points].children, OfKind(PointModel)), Named(name))
    {
      var points := GetPointModels();
      r := FindByName(points, name);
    }

    method GetLocationModels() returns (items: seq<Component>)
      requires Locations in mainFolders
      ensures items == Filter(mainFolders[Locations].children, OfKind(LocationModel))
    {
      items := GetAll(Locations, LocationModel);
    }

    /** The locations whose location type is `locationType` (by identity; None for null). */
    method GetLocationModelsOfType(locationType: Option<Id>) returns (items: seq<Component>)
      requires Locations in mainFolders
      ensures items == Filter(Filter(mainFolders[Locations].children, OfKind(LocationModel)),
                              HasLocationType(locationType))
    {
      var locations := GetLocationModels();
      items := [];
      for i := 0 to |locations|
        invariant items == Filter(locations[..i], HasLocationType(locationType))
      {
        var location := locations[i];
        FilterSnoc(locations[..i], location, HasLocationType(locationType));
        PrefixSnoc(locations, i);
        if location.locationType == locationType {
          items := items + [location];
        }
      }
      PrefixAll(locations);
    }

    method GetLocationModel(name: string) returns (r: Option<Component>)
      requires Locations in mainFolders
      ensures r == FindFirst(Filter(mainFolders[Locations].children, OfKind(LocationModel)), Named(name))
    {
      var locations := GetLocationModels();
      r := FindByName(locations, name);
    }

    /** The paths of the PATHS folder, in order; links there are skipped. */
    method GetPathModels() returns (items: seq<Component>)
      requires Paths in mainFolders
      ensures items == Filter(mainFolders[Paths].children, OfKind(PathModel))
      ensures forall c :: c in items ==> c.kind != LinkModel
    {
      items := [];
      var cs := mainFolders[Paths].children;
      for i := 0 to |cs|
        invariant items == Filter(cs[..i], OfKind(PathModel))
      {
        FilterSnoc(cs[..i], cs[i], OfKind(PathModel));
        PrefixSnoc(cs, i);
        if cs[i].kind == LinkModel {
          continue;
        }
        if cs[i].kind == PathModel {
          items := items + [cs[i]];
        }
      }
      PrefixAll(cs);
    }

    method GetPathModel(name: string) returns (r: Option<Component>)
      requires Paths in mainFolders
      ensures r == FindFirst(Filter(mainFolders[Paths].children, OfKind(PathModel)), Named(name))
    {
      var paths := GetPathModels();
      r := FindByName(paths, name);
    }

    method GetLinkModels() returns (items: seq<Component>)
      requires Links in mainFolders
      ensures items == Filter(mainFolders[Links].children, OfKind(LinkModel))
    {
      items := GetAll(Links, LinkModel);
    }

    /** The links whose location has location type `locationType` (by identity; None for null). */
    method GetLinkModelsOfType(locationType: Option<Id>) returns (items: seq<Component>)
      requires Links in mainFolders
      requires forall c :: c in mainFolders[Links].children && c.kind == LinkModel ==> c.location.Some?
      ensures items == Filter(Filter(mainFolders[Links].children, OfKind(LinkModel)),
                              LinksLocationOfType(locationType))
    {
      var links := GetAll(Links, LinkModel);
      items := [];
      for i := 0 to |links|
        invariant items == Filter(links[..i], LinksLocationOfType(locationType))
      {
        var link := links[i];
        assert link in mainFolders[Links].children && link.kind == LinkModel;
        FilterSnoc(links[..i], link, LinksLocationOfType(locationType));
        PrefixSnoc(links, i);
        if link.location.value.locationType == locationType {
          items := items + [link];
        }
      }
      PrefixAll(links);
    }

    method GetLocationTypeModels() returns (items: seq<Component>)
      requires LocationTypes in mainFolders
      requires forall c :: c in mainFolders[LocationTypes].children ==> c.kind == LocationTypeModel
      ensures items == mainFolders[LocationTypes].children
    {
      items := ChildrenAs(LocationTypes, LocationTypeModel);
    }

    method GetLocationTypeModel(name: string) returns (r: Option<Component>)
      requires LocationTypes in mainFolders
      requires forall c :: c in mainFolders[LocationTypes].children ==> c.kind == LocationTypeModel
      ensures r == FindFirst(mainFolders[LocationTypes].children, Named(name))
    {
      var types := GetLocationTypeModels();
      r := FindByName(types, name);
    }

    method GetBlockModels() returns (items: seq<Component>)
      requires Blocks in mainFolders
      requires forall c :: c in mainFolders[Blocks].children ==> c.kind == BlockModel
      ensures items == mainFolders[Blocks].children
    {
      items := ChildrenAs(Blocks, BlockModel);
    }

    method GetGroupModels() returns (items: seq<Component>)
      requires Groups in mainFolders
      requires forall c :: c in mainFolders[Groups].children ==> c.kind == GroupModel
      ensures items == mainFolders[Groups].children
    {
      items := ChildrenAs(Groups, GroupModel);
    }

    method GetStaticRouteModels() returns (items: seq<Component>)
      requires StaticRoutes in mainFolders
      requires forall c :: c in mainFolders[StaticRoutes].children ==> c.kind == StaticRouteModel
      ensures items == mainFolders[StaticRoutes].children
    {
      items := ChildrenAs(StaticRoutes, StaticRouteModel);
    }

    method GetOtherGraphicalElements() returns (items: seq<Component>)
      requires OtherGraphicalElements in mainFolders
      requires forall c :: c in mainFolders[OtherGraphicalElements].children ==> c.kind == OtherGraphicalElement
      ensures items == mainFolders[OtherGraphicalElements].children
    {
      items := ChildrenAs(OtherGraphicalElements, OtherGraphicalElement);
    }

    /**
     * Maps every point, path, location and block reference to the first
     * element of `layout` that visualizes it.
     */
    method CreateLayoutMap(layout: VisualLayout, points: seq<ObjectRef>, paths: seq<ObjectRef>,
                           locations: seq<ObjectRef>, blocks: seq<ObjectRef>)
      modifies this`layoutMap
      ensures layoutMap == MapElements(old(layoutMap), points + paths + locations + blocks, layout.layoutElements)
    {
      var elements := layout.layoutElements;
      MapLayoutElements(points, elements);
      MapLayoutElements(paths, elements);
      MapLayoutElements(locations, elements);
      MapLayoutElements(blocks, elements);
      MapElementsAppend(old(layoutMap), points, paths, elements);
      MapElementsAppend(old(layoutMap), points + paths, locations, elements);
      MapElementsAppend(old(layoutMap), points + paths + locations, blocks, elements);
    }

    /** One of the loops of CreateLayoutMap: maps each reference of `refs` in turn. */
    method MapLayoutElements(refs: seq<ObjectRef>, elements: seq<LayoutElement>)
      modifies this`layoutMap
      ensures layoutMap == MapElements(old(layoutMap), refs, elements)
    {
      for i := 0 to |refs|
        invariant layoutMap == MapElements(old(layoutMap), refs[..i], elements)
      {
        MapLayoutElement(refs[i], elements);
        PrefixSnoc(refs, i);
        MapElementsSnoc(old(layoutMap), refs[..i], refs[i], elements);
      }
      PrefixAll(refs);
    }

    /** Maps `reference` to the first of `elements` that visualizes it, if any. */
    method MapLayoutElement(reference: ObjectRef, elements: seq<LayoutElement>)
      modifies this`layoutMap
      ensures layoutMap == MapElement(old(layoutMap), reference, elements)
    {
      for i := 0 to |elements|
        invariant forall j :: 0 <= j < i ==> elements[j].visualizedObject != Some(reference)
        invariant layoutMap == old(layoutMap)
      {
        if elements[i].visualizedObject == Some(reference) {
          layoutMap := layoutMap[reference := elements[i]];
          FindFirstAt(elements, Visualizes(reference), i);
          return;
        }
      }
    }

    /** The main-folder table, the model's children and the class-to-folder table. */
    function State(): FolderState
      reads this
    {
      FolderState(mainFolders, children, parentFolders)
    }

    /** Creates the eleven main folders and places them in the model tree. */
    method CreateMainFolders(title: FolderKey -> string)
      requires children == [] && mainFolders == map[] && parentFolders == map[]
      modifies this`children, this`mainFolders, this`parentFolders
      ensures FoldersCreated(mainFolders, children, title) && parentFolders == map[]
    {
      CreateMainFolder(ModelRoot, Vehicles, NewSimpleFolder(Vehicles, title));
      var layoutModel := NewLayoutModel([]);
      CreateMainFolder(ModelRoot, Layout, layoutModel);
      CreateLayoutSubfolders(title);
      CreatedStateComplete(|LayoutSubfolderKeys|, title, State());
    }

    /** Creates the nine main folders inside LAYOUT, in order. */
    method CreateLayoutSubfolders(title: FolderKey -> string)
      requires State() == CreatedState(0, title)
      modifies this`children, this`mainFolders, this`parentFolders
      ensures State() == CreatedState(|LayoutSubfolderKeys|, title)
    {
      var n := 0;
      CreateLayoutSubfolder(n, title);
      n := n + 1;
      CreateLayoutSubfolder(n, title);
      n := n + 1;
      CreateLayoutSubfolder(n, title);
      n := n + 1;
      CreateLayoutSubfolder(n, title);
      n := n + 1;
      CreateLayoutSubfolder(n, title);
      n := n + 1;
      CreateLayoutSubfolder(n, title);
      n := n + 1;
      CreateLayoutSubfolder(n, title);
      n := n + 1;
      CreateLayoutSubfolder(n, title);
      n := n + 1;
      CreateLayoutSubfolder(n, title);
      n := n + 1;
    }

    /**
     * Creates the main folder for the `n`-th key of LayoutSubfolderKeys and
     * adds it to the LAYOUT folder.
     */
    method CreateLayoutSubfolder(n: nat, title: FolderKey -> string)
      requires n < |LayoutSubfolderKeys| && State() == CreatedState(n, title)
      modifies this`children, this`mainFolders, this`parentFolders
      ensures State() == CreatedState(n + 1, title)
    {
      var key := LayoutSubfolderKeys[n];
      CreatedStateShape(n, title);
      CreateMainFolder(Folder(mainFolders[Layout]), key, NewSimpleFolder(key, title));
    }

    /** Registers `newFolder` for `key` and adds it to `parent`. */
    method CreateMainFolder(parent: Parent, key: FolderKey, newFolder: Component)
      modifies this`children, this`mainFolders, this`parentFolders
      ensures parent.ModelRoot? ==>
                && mainFolders == old(mainFolders)[key := newFolder]
                && children == old(children) + [newFolder]
                && parentFolders == old(parentFolders)
      ensures parent.Folder? ==>
                && mainFolders == AddChildIn(old(mainFolders)[key := newFolder], parent.component.id, newFolder)
                && children == AddChildAll(old(children), parent.component.id, newFolder)
                && parentFolders == AddChildIn(old(parentFolders), parent.component.id, newFolder)
      ensures old(Valid()) ==> Valid()
    {
      AddMainFolder(key, newFolder);
      AddToParent(parent, newFolder);
    }

    /**
     * `parent.add(child)`: the model itself gets a new last child; a folder
     * gets it in every place of the model's state where that folder appears.
     */
    method AddToParent(parent: Parent, child: Component)
      modifies this`children, this`mainFolders, this`parentFolders
      ensures parent.ModelRoot? ==>
                && children == old(children) + [child]
                && mainFolders == old(mainFolders)
                && parentFolders == old(parentFolders)
      ensures parent.Folder? ==>
                && mainFolders == AddChildIn(old(mainFolders), parent.component.id, child)
                && children == AddChildAll(old(children), parent.component.id, child)
                && parentFolders == AddChildIn(old(parentFolders), parent.component.id, child)
      ensures old(Valid()) ==> Valid()
    {
      match parent
      case ModelRoot =>
        children := children + [child];
      case Folder(folder) =>
        mainFolders := AddChildIn(mainFolders, folder.id, child);
        children := AddChildAll(children, folder.id, child);
        parentFolders := AddChildIn(parentFolders, folder.id, child);
    }

    /** Registers the folder each of the eleven element classes belongs in. */
    method SetupParentFolders()
      requires Valid()
      modifies this`parentFolders
      ensures forall kind :: FolderFor(kind).Some? ==>
                kind in parentFolders && parentFolders[kind] == mainFolders[FolderFor(kind).value]
      ensures forall kind :: kind in parentFolders <==> kind in old(parentFolders) || FolderFor(kind).Some?
      ensures SimpleFolder in old(parentFolders) ==> parentFolders[SimpleFolder] == old(parentFolders)[SimpleFolder]
    {
      var table := parentFolders;
      table := table[VehicleModel := mainFolders[Vehicles]];
      table := table[LayoutModel := mainFolders[Layout]];
      table := table[PointModel := mainFolders[Points]];
      table := table[PathModel := mainFolders[Paths]];
      table := table[LocationModel := mainFolders[Locations]];
      table := table[LocationTypeModel := mainFolders[LocationTypes]];
      table := table[LinkModel := mainFolders[Links]];
      table := table[BlockModel := mainFolders[Blocks]];
      table := table[GroupModel := mainFolders[Groups]];
      table := table[StaticRouteModel := mainFolders[StaticRoutes]];
      table := table[OtherGraphicalElement := mainFolders[OtherGraphicalElements]];
      parentFolders := table;
    }
  }
}
