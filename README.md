# openTCS system model: folder registry and queries

This project models the core of `StandardSystemModel` from the openTCS plant
overview, and proves properties of that model. `StandardSystemModel` is the
composite model component at the root of a plant model.

It keeps three tables:

- the main folder of each `FolderKey` (VEHICLES, LAYOUT, POINTS, PATHS,
  LOCATIONS, LOCATION_TYPES, LINKS, BLOCKS, GROUPS, STATIC_ROUTES,
  OTHER_GRAPHICAL_ELEMENTS);
- the folder that components of each class belong in;
- the layout element that visualizes each kernel object reference.

On top of these tables it answers typed queries over the folders' children.

The project has four files:

- `sequences.dfy` holds `Wrappers.Option` and module `Sequences`.
  - `Filter` keeps the elements that pass a test. It is proved to keep exactly those elements, as often as they occur and in their order.
  - `FindFirst` finds the first element that passes a test.
  - A few slice lemmas are stated once for any element type.
- `model_component.dfy` holds module `ModelComponents`.
  - Components are a datatype with a kind tag that stands for the Java class.
  - `Flatten` is the recursive `getAll(folder)` and comes with its lemmas.
  - `AddChild` is `parent.add(child)`. It appends the child to every copy of the parent, meaning every node with the parent's identity. That matches Java's `add` as long as distinct objects have distinct ids and all copies of one id are equal. The constructor's contract establishes this for the folders it builds; see "## Left out" for later calls.
- `layout_map.dfy` holds module `LayoutMaps`: the first-match search that fills the layout map, and what a run over a list of references does to that map.
- `standard_system_model.dfy` holds module `SystemModels`.
  - The class `StandardSystemModel` has the three tables as fields.
  - Its constructor builds the folders.
  - `getMainFolder` and `getLayoutModel` are functions. Every other query is a read-only method.
  - The list queries and name lookups are proved against `Filter`, `FindFirst` or `Flatten`.
  - `GetMainFolder`, `GetFolder`, `GetLayoutModels` and `GetLayoutModel` state their results directly: a table lookup, the registered folder of a class, the one-element list holding LAYOUT, and None.
  - The layout-map methods update `layoutMap` in place.
  - The lemmas about building the folder tree and about `getAll()` are module-level.

Modelling decisions:

- **Object identity.** A component carries an `id`, which stands for Java reference identity. `getLocationType() == type` compares ids, with `None` for null. When a folder gets a child, every copy of that folder (same id) in the model's state gets it. This is faithful while each Java object has its own id.
- **Classes.** `isInstance`, `instanceof` and `getClass() ==` become equality of kind tags. Subclassing is not modelled.
- **Unchecked casts.**
  - The casts in `getVehicleModels`, `getLocationTypeModels`, `getBlockModels`, `getGroupModels`, `getStaticRouteModels` and `getOtherGraphicalElements` become a precondition: the folder holds only that kind.
  - The `(LayoutModel)` cast in `getLayoutModels` becomes the precondition that the LAYOUT folder is a layout model.
  - The `(ModelLayoutElement)` cast in `mapLayoutElement` cannot fail in the model: a layout element has only the model-layout-element form.
- **Null dereferences.** Where the source would throw `NullPointerException`, the model has a precondition instead. This covers a missing folder in `getAll(key, class)` and in the `get*Models` other than `getLayoutModels`, and a link without a location in `getLinkModels(type)`.
- **A missing LAYOUT folder.** `getLayoutModels` does not throw when LAYOUT has no folder: the cast of null succeeds, and the list holds null. The model excludes this case: `GetLayoutModels` requires a LAYOUT folder. The case cannot arise on a constructed model. The constructor gives every key a folder, and no operation removes a key (`AddMainFolder`, `CreateMainFolder` and `AddToParent` keep `Valid()`, which says every key has a folder).
- **Hash-table order.** The iteration order of a `HashMap` or `HashSet` is a parameter:
  - `order` for the values of the main-folder table;
  - `classes` for the key set of the class-to-folder table;
  - the element sequence of a visual layout;
  - the reference sequences of `createLayoutMap`.

  Results are stated for whatever order is given. `GetAllOrderIrrelevant` proves that `getAll()` lists the same components, equally often, for every order. `MapElementsSpec` proves that each reference ends up with the first matching element whatever the order of the references.
- **Layout elements.** A layout element carries an `id` that stands for the Java object, as a component does. Two elements that visualize the same reference are therefore distinguishable, and `MapElementFirstMatch` shows that the element listed first is the one stored.
- **Folder titles.** The localized titles from the resource bundle are a parameter `title`. The name of the layout model is the constant `LayoutName`, `"VLayout-1"`, as in the source.

`getAll()` lists every leaf inside one of the nine LAYOUT sub-folders at least twice.
It lists it once through LAYOUT and once through the sub-folder's own
main-folder entry, because `getAll()` walks every main folder and those nine
are also children of LAYOUT. `GetAllListsLayoutSubfolderLeavesTwice` proves
this for any table of that shape, and the constructor's contract states that
the built model has that shape.

## Model

| member | source | states |
|---|---|---|
| SystemModels.StandardSystemModel.constructor | openTCS-PlantOverview/src/main/java/org/opentcs/guing/model/StandardSystemModel.java:108-119 | After construction the model is named "Model" and the layout map is empty. Every key has a main folder, and distinct keys have distinct folder objects. The model's children are exactly the VEHICLES and LAYOUT folders. LAYOUT is the layout model "VLayout-1" and holds exactly the nine other main folders, in creation order. Every other folder is a fresh, empty folder. Each of the eleven element classes maps to its own folder, and no other class has an entry. |
| SystemModels.StandardSystemModel.AddMainFolder | openTCS-PlantOverview/src/main/java/org/opentcs/guing/model/StandardSystemModel.java:131-133 | Afterwards getMainFolder(key) returns the new component, the folder of every other key is unchanged, and a table that had every key still has every key |
| SystemModels.StandardSystemModel.GetMainFolder | openTCS-PlantOverview/src/main/java/org/opentcs/guing/model/StandardSystemModel.java:136-138 | Returns the folder registered for the key, or None (null) exactly when there is none |
| SystemModels.StandardSystemModel.GetFolder | openTCS-PlantOverview/src/main/java/org/opentcs/guing/model/StandardSystemModel.java:141-153 | A null item gives null. An item whose class is registered gives that class's folder, whatever order the key set is scanned in. Any other item gives null. |
| SystemModels.StandardSystemModel.GetAll | openTCS-PlantOverview/src/main/java/org/opentcs/guing/model/StandardSystemModel.java:156-165 | The result is Filter of the folder's children by kind, which `Sequences.FilterExactly` shows is exactly the children of that kind, in child order |
| Sequences.Filter | openTCS-PlantOverview/src/main/java/org/opentcs/guing/model/StandardSystemModel.java:158-162 | Every element kept is an element of the input that passes the test, and the result is no longer than the input: the filtering loop of getAll(key, class) and the get*Models |
| Sequences.FilterExactly | openTCS-PlantOverview/src/main/java/org/opentcs/guing/model/StandardSystemModel.java:156-165 | The filtered list is a subsequence of the input: order is kept. It holds each element that passes the test as often as the input does, and no element that fails it. |
| Sequences.FilterAll | openTCS-PlantOverview/src/main/java/org/opentcs/guing/model/StandardSystemModel.java:197-205 | When every element passes the test, filtering returns the list unchanged: a folder whose children are all of the cast class lists all of them |
| Sequences.FilterSnoc | openTCS-PlantOverview/src/main/java/org/opentcs/guing/model/StandardSystemModel.java:158-162 | Filtering one more element appends it exactly when it passes the test: one step of each filtering loop |
| Sequences.FirstIndex | openTCS-PlantOverview/src/main/java/org/opentcs/guing/model/StandardSystemModel.java:240-248 | The index found is of an element that passes the test, and no earlier element passes. None is returned only when no element passes. |
| Sequences.FindFirst | openTCS-PlantOverview/src/main/java/org/opentcs/guing/model/StandardSystemModel.java:240-248 | A result is found exactly when some element passes the test. It passes the test, and it occurs at a position before which no element passes. |
| Sequences.FindFirstAt | openTCS-PlantOverview/src/main/java/org/opentcs/guing/model/StandardSystemModel.java:240-248 | An element that passes the test, with no passing element before it, is the one the search returns |
| SystemModels.FindByName | openTCS-PlantOverview/src/main/java/org/opentcs/guing/model/StandardSystemModel.java:208-216 | The name-lookup loop returns the first component with that name, or None (null) when there is none |
| SystemModels.StandardSystemModel.GetVehicleModels | openTCS-PlantOverview/src/main/java/org/opentcs/guing/model/StandardSystemModel.java:197-205 | Lists every child of VEHICLES, in order, when all are vehicles |
| SystemModels.StandardSystemModel.GetVehicleModel | openTCS-PlantOverview/src/main/java/org/opentcs/guing/model/StandardSystemModel.java:208-216 | The first vehicle of VEHICLES with the given name, or None |
| SystemModels.StandardSystemModel.GetLayoutModels | openTCS-PlantOverview/src/main/java/org/opentcs/guing/model/StandardSystemModel.java:219-226 | Always the one-element list holding the LAYOUT folder |
| SystemModels.StandardSystemModel.GetLayoutModel | openTCS-PlantOverview/src/main/java/org/opentcs/guing/model/StandardSystemModel.java:229-232 | Always None (null), whatever the name |
| SystemModels.StandardSystemModel.GetPointModels | openTCS-PlantOverview/src/main/java/org/opentcs/guing/model/StandardSystemModel.java:235-237 | Exactly the point children of POINTS, in order |
| SystemModels.StandardSystemModel.GetPointModel | openTCS-PlantOverview/src/main/java/org/opentcs/guing/model/StandardSystemModel.java:240-248 | The first point of POINTS with the given name, or None |
| SystemModels.StandardSystemModel.GetLocationModels | openTCS-PlantOverview/src/main/java/org/opentcs/guing/model/StandardSystemModel.java:251-261 | Exactly the location children of LOCATIONS, in order |
| SystemModels.StandardSystemModel.GetLocationModelsOfType | openTCS-PlantOverview/src/main/java/org/opentcs/guing/model/StandardSystemModel.java:264-277 | The order-preserving sublist of getLocationModels() whose location type is identical to the given one, null included |
| SystemModels.StandardSystemModel.GetLocationModel | openTCS-PlantOverview/src/main/java/org/opentcs/guing/model/StandardSystemModel.java:280-288 | The first location of LOCATIONS with the given name, or None |
| SystemModels.StandardSystemModel.GetPathModels | openTCS-PlantOverview/src/main/java/org/opentcs/guing/model/StandardSystemModel.java:291-305 | Exactly the path children of PATHS, in order. No link is ever listed. |
| SystemModels.StandardSystemModel.GetPathModel | openTCS-PlantOverview/src/main/java/org/opentcs/guing/model/StandardSystemModel.java:308-316 | The first path of PATHS with the given name, or None |
| SystemModels.StandardSystemModel.GetLinkModels | openTCS-PlantOverview/src/main/java/org/opentcs/guing/model/StandardSystemModel.java:319-329 | Exactly the link children of LINKS, in order |
| SystemModels.StandardSystemModel.GetLinkModelsOfType | openTCS-PlantOverview/src/main/java/org/opentcs/guing/model/StandardSystemModel.java:332-342 | The order-preserving sublist of the links of LINKS whose location's type is identical to the given one |
| SystemModels.StandardSystemModel.GetLocationTypeModels | openTCS-PlantOverview/src/main/java/org/opentcs/guing/model/StandardSystemModel.java:345-352 | Every child of LOCATION_TYPES, in order, when all are location types |
| SystemModels.StandardSystemModel.GetLocationTypeModel | openTCS-PlantOverview/src/main/java/org/opentcs/guing/model/StandardSystemModel.java:355-363 | The first location type with the given name, or None |
| SystemModels.StandardSystemModel.GetBlockModels | openTCS-PlantOverview/src/main/java/org/opentcs/guing/model/StandardSystemModel.java:366-372 | Every child of BLOCKS, in order, when all are blocks |
| SystemModels.StandardSystemModel.GetGroupModels | openTCS-PlantOverview/src/main/java/org/opentcs/guing/model/StandardSystemModel.java:375-381 | Every child of GROUPS, in order, when all are groups |
| SystemModels.StandardSystemModel.GetStaticRouteModels | openTCS-PlantOverview/src/main/java/org/opentcs/guing/model/StandardSystemModel.java:384-391 | Every child of STATIC_ROUTES, in order, when all are static routes |
| SystemModels.StandardSystemModel.GetOtherGraphicalElements | openTCS-PlantOverview/src/main/java/org/opentcs/guing/model/StandardSystemModel.java:394-401 | Every child of OTHER_GRAPHICAL_ELEMENTS, in order, when all are graphical elements |
| SystemModels.StandardSystemModel.ChildrenAs | openTCS-PlantOverview/src/main/java/org/opentcs/guing/model/StandardSystemModel.java:366-372 | The cast-every-child loop returns the folder's children unchanged, which equals filtering them by the cast class |
| SystemModels.StandardSystemModel.CollectLeaves | openTCS-PlantOverview/src/main/java/org/opentcs/guing/model/StandardSystemModel.java:440-451 | The recursive getAll(folder) returns Flatten of the folder's children: its leaves, depth first |
| ModelComponents.Flatten | openTCS-PlantOverview/src/main/java/org/opentcs/guing/model/StandardSystemModel.java:440-451 | No composite component is ever in the result |
| ModelComponents.FlattenReachable | openTCS-PlantOverview/src/main/java/org/opentcs/guing/model/StandardSystemModel.java:440-451 | A component is in the result if and only if it is a leaf reached from the list through composite components only |
| ModelComponents.FlattenLeaves | openTCS-PlantOverview/src/main/java/org/opentcs/guing/model/StandardSystemModel.java:440-451 | A list of leaves is returned as it is |
| ModelComponents.FlattenAppend | openTCS-PlantOverview/src/main/java/org/opentcs/guing/model/StandardSystemModel.java:442-449 | The leaves of two lists one after the other are the leaves of the first followed by those of the second (addAll) |
| ModelComponents.FlattenPermutation | openTCS-PlantOverview/src/main/java/org/opentcs/guing/model/StandardSystemModel.java:168-179 | Lists holding the same components, equally often, have the same leaves, equally often |
| ModelComponents.FlattenCountsNestedTwice | openTCS-PlantOverview/src/main/java/org/opentcs/guing/model/StandardSystemModel.java:168-179 | When one composite of a list is also a child of another, each leaf under it is listed at least twice |
| SystemModels.StandardSystemModel.GetAllComponents | openTCS-PlantOverview/src/main/java/org/opentcs/guing/model/StandardSystemModel.java:168-179 | getAll() returns, in the table's enumeration order, the leaves of each composite main folder and each non-composite main folder itself |
| SystemModels.FolderValues | openTCS-PlantOverview/src/main/java/org/opentcs/guing/model/StandardSystemModel.java:170 | The values listed for an enumeration order are folders of the table, at most one per key |
| SystemModels.FolderValuesAt | openTCS-PlantOverview/src/main/java/org/opentcs/guing/model/StandardSystemModel.java:170 | When the table holds every enumerated key, the i-th value listed is the folder of the i-th key |
| SystemModels.FolderValuesPermutation | openTCS-PlantOverview/src/main/java/org/opentcs/guing/model/StandardSystemModel.java:170 | Enumerating the same keys in another order lists the same folders, equally often |
| SystemModels.GetAllOrderIrrelevant | openTCS-PlantOverview/src/main/java/org/opentcs/guing/model/StandardSystemModel.java:168-179 | getAll() lists the same components, equally often, whatever order the hash table enumerates its values in |
| SystemModels.GetAllListsLayoutSubfolderLeavesTwice | openTCS-PlantOverview/src/main/java/org/opentcs/guing/model/StandardSystemModel.java:168-179 | Take a main folder other than LAYOUT that is also a child of LAYOUT. getAll() lists every leaf under it at least twice. |
| SystemModels.StandardSystemModel.CreateLayoutMap | openTCS-PlantOverview/src/main/java/org/opentcs/guing/model/StandardSystemModel.java:404-427 | The new layout map is the old one after one mapping step for each point, path, location and block reference, in that order |
| SystemModels.StandardSystemModel.MapLayoutElements | openTCS-PlantOverview/src/main/java/org/opentcs/guing/model/StandardSystemModel.java:412-426 | Each loop of createLayoutMap leaves the map as MapElements of the old map over its references |
| LayoutMaps.MapElements | openTCS-PlantOverview/src/main/java/org/opentcs/guing/model/StandardSystemModel.java:412-426 | Mapping a list of references in turn removes no entry, and only references of the list can gain one |
| LayoutMaps.MapElementFirstMatch | openTCS-PlantOverview/src/main/java/org/opentcs/guing/model/StandardSystemModel.java:456-461 | Of two distinct elements that both visualize the reference, the search stores the one listed first, so swapping them changes the map |
| LayoutMaps.MapElementsAppend | openTCS-PlantOverview/src/main/java/org/opentcs/guing/model/StandardSystemModel.java:412-426 | Mapping one list of references and then another is mapping their concatenation |
| LayoutMaps.MapElementsSpec | openTCS-PlantOverview/src/main/java/org/opentcs/guing/model/StandardSystemModel.java:404-427 | No entry is ever removed. A reference not in the list keeps its entry, or its lack of one. A listed reference ends up mapped to the first element that visualizes it, or keeps its entry when none does. |
| SystemModels.StandardSystemModel.MapLayoutElement | openTCS-PlantOverview/src/main/java/org/opentcs/guing/model/StandardSystemModel.java:453-463 | The new layout map is MapElement of the old one for this reference |
| LayoutMaps.MapElement | openTCS-PlantOverview/src/main/java/org/opentcs/guing/model/StandardSystemModel.java:453-463 | If some element visualizes the reference, it is then mapped to the first such element. If none does, the map is unchanged. No other reference's entry changes, and no key is lost. |
| SystemModels.StandardSystemModel.CreateMainFolders | openTCS-PlantOverview/src/main/java/org/opentcs/guing/model/StandardSystemModel.java:471-498 | From an empty model, every key gets its folder, each folder object its own identity, and LAYOUT the nine other folders in order. The model's children are VEHICLES and LAYOUT, and the class table is still empty. |
| SystemModels.StandardSystemModel.CreateLayoutSubfolders | openTCS-PlantOverview/src/main/java/org/opentcs/guing/model/StandardSystemModel.java:480-497 | The nine createMainFolder calls into LAYOUT take the state from no layout folder to all nine, in creation order |
| SystemModels.StandardSystemModel.CreateLayoutSubfolder | openTCS-PlantOverview/src/main/java/org/opentcs/guing/model/StandardSystemModel.java:480-497 | Each createMainFolder call into LAYOUT moves the state from CreatedState(n) to CreatedState(n + 1) |
| SystemModels.StandardSystemModel.CreateMainFolder | openTCS-PlantOverview/src/main/java/org/opentcs/guing/model/StandardSystemModel.java:513-518 | The folder is registered for its key and added to its parent: to the model's children, or to every copy of the parent folder in the state. A table with every key keeps every key. |
| SystemModels.StandardSystemModel.AddToParent | openTCS-PlantOverview/src/main/java/org/opentcs/guing/model/StandardSystemModel.java:517 | The model gets one new last child, or every copy of the parent folder gets the child appended. Nothing else changes, and a table with every key keeps every key. |
| ModelComponents.AddChild | openTCS-PlantOverview/src/main/java/org/opentcs/guing/model/StandardSystemModel.java:517 | Only the children change. Copies of the parent get exactly one more child, the new one, last. Other nodes keep their number of children. |
| ModelComponents.AddChildAll | openTCS-PlantOverview/src/main/java/org/opentcs/guing/model/StandardSystemModel.java:517 | `add` seen through a list of components: the list keeps its length. A component that holds no copy of the parent is unchanged. A copy of the parent that holds no further copy of itself gets exactly the child appended, last. |
| ModelComponents.AddChildIn | openTCS-PlantOverview/src/main/java/org/opentcs/guing/model/StandardSystemModel.java:517 | `add` seen through a table: the table keeps its keys. A value that holds no copy of the parent is unchanged. A copy of the parent that holds no further copy of itself gets exactly the child appended, last. |
| ModelComponents.AddChildAbsent | openTCS-PlantOverview/src/main/java/org/opentcs/guing/model/StandardSystemModel.java:517 | A tree that does not contain the parent is left as it is |
| ModelComponents.AddChildAtParent | openTCS-PlantOverview/src/main/java/org/opentcs/guing/model/StandardSystemModel.java:517 | A parent holding no other copy of itself gets exactly the child appended |
| ModelComponents.AddChildEffect | openTCS-PlantOverview/src/main/java/org/opentcs/guing/model/StandardSystemModel.java:517 | For every component: one holding no copy of the parent is left as it is, and a sole copy of the parent gets exactly the child appended |
| SystemModels.CreatedStateShape | openTCS-PlantOverview/src/main/java/org/opentcs/guing/model/StandardSystemModel.java:471-498 | After VEHICLES, LAYOUT and n layout folders are created, the table holds exactly those folders, LAYOUT holds the n in creation order, and the model's children are VEHICLES and LAYOUT |
| SystemModels.CreateLayoutSubfolderStep | openTCS-PlantOverview/src/main/java/org/opentcs/guing/model/StandardSystemModel.java:480-497 | Registering the next layout folder and adding it to LAYOUT gives the table with one more layout folder |
| SystemModels.CreateLayoutSubfolderOthers | openTCS-PlantOverview/src/main/java/org/opentcs/guing/model/StandardSystemModel.java:480-497 | After that step every folder other than LAYOUT, the new one included, is a fresh empty folder |
| SystemModels.CreateLayoutSubfolderLayout | openTCS-PlantOverview/src/main/java/org/opentcs/guing/model/StandardSystemModel.java:480-497 | After that step LAYOUT holds the first n + 1 layout folders, in creation order |
| SystemModels.CreateLayoutSubfolderRoot | openTCS-PlantOverview/src/main/java/org/opentcs/guing/model/StandardSystemModel.java:480-497 | After that step the model's children are VEHICLES and the LAYOUT folder with one more child |
| SystemModels.AddToLayoutModel | openTCS-PlantOverview/src/main/java/org/opentcs/guing/model/StandardSystemModel.java:480-497 | LAYOUT holding the first n layout folders holds no other copy of itself, and adding the next layout folder to it gives LAYOUT holding the first n + 1 |
| SystemModels.FolderTableStart | openTCS-PlantOverview/src/main/java/org/opentcs/guing/model/StandardSystemModel.java:473-478 | After VEHICLES and LAYOUT are created, the table is in its starting shape, with no layout folder yet |
| SystemModels.CreatedStateComplete | openTCS-PlantOverview/src/main/java/org/opentcs/guing/model/StandardSystemModel.java:471-498 | Once all nine layout folders are created, every key has its folder and its own identity. LAYOUT holds the very folders the table registers for the nine keys, and the class table is empty. |
| SystemModels.CompleteFolderTableKeys | openTCS-PlantOverview/src/main/java/org/opentcs/guing/model/StandardSystemModel.java:471-498 | Once all folders are created, every one of the eleven keys has a main folder |
| SystemModels.CompleteFolderTableIds | openTCS-PlantOverview/src/main/java/org/opentcs/guing/model/StandardSystemModel.java:471-498 | Once all folders are created, distinct keys have distinct folder objects |
| SystemModels.CompleteFolderTableLayout | openTCS-PlantOverview/src/main/java/org/opentcs/guing/model/StandardSystemModel.java:480-497 | Once all folders are created, LAYOUT holds the nine layout folders in creation order, the very objects the table registers |
| SystemModels.FolderIdInjective | openTCS-PlantOverview/src/main/java/org/opentcs/guing/model/StandardSystemModel.java:471-498 | Distinct keys get distinct new folder objects |
| SystemModels.FolderFor | openTCS-PlantOverview/src/main/java/org/opentcs/guing/model/StandardSystemModel.java:525-535 | Every class but the plain folder has a registered folder key |
| SystemModels.FolderForOneToOne | openTCS-PlantOverview/src/main/java/org/opentcs/guing/model/StandardSystemModel.java:525-535 | The eleven element classes and the eleven folder keys are paired one to one: each key is the folder of exactly one class |
| SystemModels.NewLayoutModel | openTCS-PlantOverview/src/main/java/org/opentcs/guing/model/StandardSystemModel.java:476-477 | The LAYOUT folder is a composite layout model named "VLayout-1", with the identity of the LAYOUT folder, holding the given children |
| SystemModels.StandardSystemModel.SetupParentFolders | openTCS-PlantOverview/src/main/java/org/opentcs/guing/model/StandardSystemModel.java:524-536 | Each of the eleven element classes is mapped to the main folder of its key. No other class gains an entry, and a plain folder's entry is unchanged. |

## Left out

- `TextAreaDialog` and `PercentProperty`: a Swing dialog and a floating-point property type, neither part of the folder registry.
- The drawing, drawing method, event dispatcher and course object factory, with their getters: foreign library and UI objects. The layout model is created directly, with the name the source gives it.
- `createProperties` and the resource bundle: the name property is UI metadata, and the folder titles are a parameter.
- `getLayoutMap`: a plain field read; the layout map is the `layoutMap` field.
- Exceptions:
  - A `ClassCastException` is not modelled: not from the casts of the `get*Models` children, and not from `(LayoutModel)` in `getLayoutModels`, where callers are required not to cause it. Not from `(ModelLayoutElement)` in `mapLayoutElement` either, which cannot fail here because every layout element of the model is a model layout element.
  - A `NullPointerException` from a missing folder or a link without a location is not modelled. The callers are required not to cause it.
- Subclassing: `isInstance` is modelled as equality of kind tags, so `getFolder` cannot return a superclass's folder for a subclass instance.
- SystemModels.StandardSystemModel.GetFolder: requires that the scanned class sequence be exactly the table's key set. It does not state which entry a real hash table would scan first, but with kind tags at most one entry can match.
- SystemModels.StandardSystemModel.AddToParent: `add` appends to every component with the parent's id. This is Java's in-place `add` only while distinct objects carry distinct ids and all copies of one id are equal. Neither this method nor `AddMainFolder` requires that. A caller that registers or adds a different component carrying an existing folder's id would see a later `add` to that folder reach the impostor too, which Java would not do. Cycles cannot be represented either: in Java, `parent.add(c)` where `c` already contains `parent` makes a cycle, and the recursive `getAll(folder)` then never ends, but in the model the appended `c` holds the parent as it was before the call, so the result is a finite tree and `getAll` ends. The constructor's contract establishes distinct ids for the folders it builds.
- In-place changes of components other than `add` are outside this core.
- Null components and null names: a component is a `Component` value and a name is a `string`, so neither can be null. In Java, `addMainFolder(key, null)` is legal. `getMainFolder(key)` then returns null, and `getAll()` adds that null to its result, as it does with any non-composite folder. A `get*Model(null)` lookup returns null, because no name equals null. The model cannot express these cases.
- Layout elements keep only their identity and the object they visualize. Their layer and properties, and the layout's name, are not read by this core.
- Concurrency: the model is sequential.
