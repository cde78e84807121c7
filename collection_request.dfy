/** `CollectionRequestService`: lookups in a collection's item tree, the request counter, the
    workspace-membership check, and the folder edits on a stored collection. */
module CollectionRequest {
  import opened StringUtil
  import opened CollectionModel

  /** A collection item; folders hold their children in `items`. */
  datatype Item = Item(
    id: Option<string>,
    name: string,
    description: string,
    itemType: ItemType,
    source: SourceType,
    items: seq<Item>)

  datatype ServiceError =
    | NotAdminOrEditor        // thrown by the workspace role check
    | NoWorkspaceAccess       // "You don't have access of this Workspace"
    | CollectionNotFound      // "Collection Not Found"
    | FolderDoesntExist       // "Folder Doesn't Exist"

  // ---------------------------------------------------------------------------------------
  // Lookups

  /** `checkFolderExist` / `isFolderExist`: the index of the first top-level item with the id. */
  method CheckFolderExist(items: seq<Item>, id: string) returns (r: Result<nat, ServiceError>)
    ensures r.Ok? ==> r.value < |items| && items[r.value].id == Some(id)
    ensures r.Ok? ==> forall j :: 0 <= j < r.value ==> items[j].id != Some(id)
    ensures r.Err? <==> forall j :: 0 <= j < |items| ==> items[j].id != Some(id)
    ensures r.Err? ==> r.error == FolderDoesntExist
  {
    var i := 0;
    while i < |items|
      invariant 0 <= i <= |items|
      invariant forall j :: 0 <= j < i ==> items[j].id != Some(id)
    {
      if items[i].id == Some(id) {
        return Ok(i);
      }
      i := i + 1;
    }
    return Err(FolderDoesntExist);
  }

  /** `findItemById`: depth-first search, each item before its children, children before the
      item's later siblings. */
  function FindItemById(items: seq<Item>, id: string): Option<Item>
    decreases items
  {
    if items == [] then None
    else if items[0].id == Some(id) then Some(items[0])
    else
      var inner := if |items[0].items| > 0 then FindItemById(items[0].items, id) else None;
      if inner.Some? then inner else FindItemById(items[1..], id)
  }

  /** The items of a tree in depth-first pre-order. */
  function PreOrder(items: seq<Item>): seq<Item>
    decreases items
  {
    if items == [] then [] else [items[0]] + PreOrder(items[0].items) + PreOrder(items[1..])
  }

  /** The first item of a list with the id. */
  function FirstWithId(xs: seq<Item>, id: string): (r: Option<Item>)
    ensures r.Some? ==> r.value in xs && r.value.id == Some(id)
    ensures r.None? <==> forall j :: 0 <= j < |xs| ==> xs[j].id != Some(id)
    ensures r.Some? ==> exists k :: 0 <= k < |xs| && xs[k] == r.value && forall j :: 0 <= j < k ==> xs[j].id != Some(id)
  {
    if xs == [] then None else if xs[0].id == Some(id) then Some(xs[0]) else FirstWithId(xs[1..], id)
  }

  lemma {:induction false} FirstWithIdAppend(a: seq<Item>, b: seq<Item>, id: string)
    ensures FirstWithId(a + b, id) == if FirstWithId(a, id).Some? then FirstWithId(a, id) else FirstWithId(b, id)
    decreases |a|
  {
    if a == [] {
      assert a + b == b;
    } else {
      assert (a + b)[0] == a[0] && (a + b)[1..] == a[1..] + b;
      FirstWithIdAppend(a[1..], b, id);
    }
  }

  /** The search finds the first item with the id in depth-first pre-order, at any depth, and
      nothing when no item of the tree has it. */
  lemma {:induction false} FindItemByIdIsFirstInPreOrder(items: seq<Item>, id: string)
    ensures FindItemById(items, id) == FirstWithId(PreOrder(items), id)
    decreases items
  {
    if items != [] {
      var head := [items[0]];
      FindItemByIdIsFirstInPreOrder(items[0].items, id);
      FindItemByIdIsFirstInPreOrder(items[1..], id);
      FirstWithIdAppend(head + PreOrder(items[0].items), PreOrder(items[1..]), id);
      FirstWithIdAppend(head, PreOrder(items[0].items), id);
      if |items[0].items| == 0 {
        assert PreOrder(items[0].items) == [];
      }
    }
  }

  // ---------------------------------------------------------------------------------------
  // Request counter (`getNoOfRequest`)

  /** What one top-level item adds to the counter: one per request-like item, the number of
      direct children of a folder, nothing for other types. */
  function ItemWeight(item: Item): nat
  {
    match item.itemType
    case Request => 1
    case WebSocket => 1
    case SocketIo => 1
    case GraphQl => 1
    case Folder => |item.items|
    case RequestResponse => 0
  }

  function RequestCount(items: seq<Item>): nat
    decreases |items|
  {
    if items == [] then 0 else RequestCount(items[..|items| - 1]) + ItemWeight(items[|items| - 1])
  }

  /** `getNoOfRequest` on the fetched collection's items. */
  method GetNoOfRequest(items: seq<Item>) returns (n: nat)
    ensures n == RequestCount(items)
  {
    n := 0;
    var i := 0;
    while i < |items|
      invariant 0 <= i <= |items|
      invariant n == RequestCount(items[..i])
    {
      assert items[..i + 1][..i] == items[..i];
      match items[i].itemType {
        case Request => n := n + 1;
        case WebSocket => n := n + 1;
        case SocketIo => n := n + 1;
        case GraphQl => n := n + 1;
        case Folder => n := n + |items[i].items|;
        case RequestResponse =>
      }
      i := i + 1;
    }
    assert items[..|items|] == items;
  }

  /** The counter of a concatenation is the sum of the counters. */
  lemma {:induction false} RequestCountAppend(a: seq<Item>, b: seq<Item>)
    ensures RequestCount(a + b) == RequestCount(a) + RequestCount(b)
    decreases |b|
  {
    if b == [] {
      assert a + b == a;
    } else {
      assert (a + b)[..|a + b| - 1] == a + b[..|b| - 1];
      RequestCountAppend(a, b[..|b| - 1]);
    }
  }

  /** The counter does not look inside nested folders: only top-level requests and the direct
      children of top-level folders count. */
  lemma RequestCountIgnoresDepth(folder: Item, child: Item)
    requires folder.itemType == Folder && child.itemType == Folder
    ensures RequestCount([folder.(items := [child])]) == 1
  {
    assert [folder.(items := [child])][..0] == [];
  }

  // ---------------------------------------------------------------------------------------
  // Workspace membership (`checkPermission`)

  /** `workspace.users.some(user => user.id === userId)` */
  function HasPermission(memberIds: seq<string>, userId: string): (b: bool)
    ensures b <==> exists j :: 0 <= j < |memberIds| && memberIds[j] == userId
  {
    if memberIds == [] then false
    else memberIds[0] == userId || HasPermission(memberIds[1..], userId)
  }

  /** Who is asking: the result of the role check, the workspace's member ids, the caller's id. */
  datatype Access = Access(isAdminOrEditor: bool, memberIds: seq<string>, userId: string)

  /** The first access check that fails, in the order the handlers make them. */
  function AccessError(a: Access): (e: Option<ServiceError>)
    ensures e.None? <==> a.isAdminOrEditor && HasPermission(a.memberIds, a.userId)
    ensures e == Some(NoWorkspaceAccess) <==> a.isAdminOrEditor && !HasPermission(a.memberIds, a.userId)
    ensures e == Some(NotAdminOrEditor) <==> !a.isAdminOrEditor
  {
    if !a.isAdminOrEditor then Some(NotAdminOrEditor)
    else if !HasPermission(a.memberIds, a.userId) then Some(NoWorkspaceAccess)
    else None
  }

  // ---------------------------------------------------------------------------------------
  // Folder edits on the stored collections

  datatype AddFolderPayload = AddFolderPayload(name: string, description: Option<string>, source: Option<SourceType>)

  datatype UpdateFolderPayload = UpdateFolderPayload(folderId: string, name: Option<string>, description: Option<string>)

  /** The folder `addFolder` appends. */
  function NewFolder(newId: string, p: AddFolderPayload): Item
  {
    Item(Some(newId), p.name,
      if p.description.Some? then p.description.value else "",
      Folder,
      if p.source.Some? then p.source.value else User,
      [])
  }

  /** The folder after `updateFolder`: each of name and description replaced only when given. */
  function Renamed(folder: Item, p: UpdateFolderPayload): Item
  {
    folder.(name := if p.name.Some? then p.name.value else folder.name,
            description := if p.description.Some? then p.description.value else folder.description)
  }

  /** `items.filter(item => item.id !== folderId)` */
  function RemoveById(items: seq<Item>, id: string): (r: seq<Item>)
    ensures |r| <= |items|
    ensures forall x :: x in r ==> x in items && x.id != Some(id)
    decreases |items|
  {
    if items == [] then []
    else RemoveById(items[..|items| - 1], id) + (if items[|items| - 1].id == Some(id) then [] else [items[|items| - 1]])
  }

  /** The stored collections, keyed by collection id. */
  class CollectionStore {
    var collections: map<string, seq<Item>>

    constructor (initial: map<string, seq<Item>>)
      ensures collections == initial
    {
      collections := initial;
    }

    /** `addFolder`: after the access checks and the collection lookup, append a new empty
        folder and store the collection. */
    method AddFolder(access: Access, collectionId: string, payload: AddFolderPayload, newId: string)
      returns (r: Result<Item, ServiceError>)
      modifies this
      ensures AccessError(access).Some? ==> r == Err(AccessError(access).value)
      ensures AccessError(access).None? && collectionId !in old(collections) ==> r == Err(CollectionNotFound)
      ensures AccessError(access).None? && collectionId in old(collections) ==> r.Ok?
      ensures r.Err? ==> collections == old(collections)
      ensures r.Ok? ==> (r.value == NewFolder(newId, payload)
        && collectionId in old(collections)
        && collections == old(collections)[collectionId := old(collections)[collectionId] + [r.value]])
    {
      var denied := AccessError(access);
      if denied.Some? {
        return Err(denied.value);
      }
      if collectionId !in collections {
        return Err(CollectionNotFound);
      }
      var folder := NewFolder(newId, payload);
      collections := collections[collectionId := collections[collectionId] + [folder]];
      return Ok(folder);
    }

    /** `updateFolder`: after the checks, find the folder among the top-level items and replace
        its name and description where the payload gives them. */
    method UpdateFolder(access: Access, collectionId: string, payload: UpdateFolderPayload)
      returns (r: Result<Item, ServiceError>)
      modifies this
      ensures AccessError(access).Some? ==> r == Err(AccessError(access).value)
      ensures AccessError(access).None? && collectionId !in old(collections) ==> r == Err(CollectionNotFound)
      ensures AccessError(access).None? && collectionId in old(collections) ==>
        (r == Err(FolderDoesntExist) <==>
          forall j :: 0 <= j < |old(collections)[collectionId]| ==> old(collections)[collectionId][j].id != Some(payload.folderId))
      ensures AccessError(access).None? && collectionId in old(collections) ==>
        (r.Ok? <==>
          exists j :: 0 <= j < |old(collections)[collectionId]| && old(collections)[collectionId][j].id == Some(payload.folderId))
      ensures r.Err? ==> collections == old(collections)
      ensures r.Ok? ==> (collectionId in old(collections) &&
        exists k :: 0 <= k < |old(collections)[collectionId]|
          && old(collections)[collectionId][k].id == Some(payload.folderId)
          && (forall j :: 0 <= j < k ==> old(collections)[collectionId][j].id != Some(payload.folderId))
          && r.value == Renamed(old(collections)[collectionId][k], payload)
          && collections == old(collections)[collectionId := old(collections)[collectionId][k := r.value]])
    {
      var denied := AccessError(access);
      if denied.Some? {
        return Err(denied.value);
      }
      if collectionId !in collections {
        return Err(CollectionNotFound);
      }
      var items := collections[collectionId];
      var found := CheckFolderExist(items, payload.folderId);
      if found.Err? {
        return Err(found.error);
      }
      var k := found.value;
      var folder := Renamed(items[k], payload);
      collections := collections[collectionId := items[k := folder]];
      return Ok(folder);
    }

    /** `deleteFolder`: after the checks, drop every top-level item with the folder id (there
        may be none) and store the collection. */
    method DeleteFolder(access: Access, collectionId: string, folderId: string)
      returns (r: Result<(), ServiceError>)
      modifies this
      ensures AccessError(access).Some? ==> r == Err(AccessError(access).value)
      ensures AccessError(access).None? && collectionId !in old(collections) ==> r == Err(CollectionNotFound)
      ensures AccessError(access).None? && collectionId in old(collections) ==> r.Ok?
      ensures r.Err? ==> collections == old(collections)
      ensures r.Ok? ==> (collectionId in old(collections)
        && collections == old(collections)[collectionId := RemoveById(old(collections)[collectionId], folderId)])
    {
      var denied := AccessError(access);
      if denied.Some? {
        return Err(denied.value);
      }
      if collectionId !in collections {
        return Err(CollectionNotFound);
      }
      collections := collections[collectionId := RemoveById(collections[collectionId], folderId)];
      return Ok(());
    }
  }

  // Properties of the edits

  /** Adding a folder keeps the earlier items and the request counter. */
  lemma AddFolderKeepsItemsAndCount(items: seq<Item>, newId: string, p: AddFolderPayload)
    ensures (items + [NewFolder(newId, p)])[..|items|] == items
    ensures RequestCount(items + [NewFolder(newId, p)]) == RequestCount(items)
  {
    assert (items + [NewFolder(newId, p)])[..|items|] == items;
  }

  /** Renaming touches only name and description, and with an empty payload nothing. */
  lemma RenamedOnlyNameAndDescription(folder: Item, p: UpdateFolderPayload)
    ensures Renamed(folder, p).id == folder.id && Renamed(folder, p).items == folder.items
    ensures Renamed(folder, p).itemType == folder.itemType && Renamed(folder, p).source == folder.source
    ensures p.name.None? && p.description.None? ==> Renamed(folder, p) == folder
  {
  }

  /** Deletion keeps every item with another id. */
  lemma {:induction false} RemoveByIdKeepsOthers(items: seq<Item>, id: string)
    ensures forall j :: 0 <= j < |items| && items[j].id != Some(id) ==> items[j] in RemoveById(items, id)
    decreases |items|
  {
    if items != [] {
      var init := items[..|items| - 1];
      RemoveByIdKeepsOthers(init, id);
      assert forall j :: 0 <= j < |init| ==> items[j] == init[j];
    }
  }

  /** Deleting an id no top-level item has changes nothing. */
  lemma {:induction false} RemoveByIdAbsent(items: seq<Item>, id: string)
    requires forall j :: 0 <= j < |items| ==> items[j].id != Some(id)
    ensures RemoveById(items, id) == items
    decreases |items|
  {
    if items != [] {
      var init := items[..|items| - 1];
      var last := items[|items| - 1];
      RemoveByIdAbsent(init, id);
      assert items == init + [last];
      RemoveByIdAppend(init, last, id);
    }
  }

  /** Deleting the same folder twice is the same as deleting it once. */
  lemma RemoveByIdIdempotent(items: seq<Item>, id: string)
    ensures RemoveById(RemoveById(items, id), id) == RemoveById(items, id)
  {
    var r := RemoveById(items, id);
    assert forall j :: 0 <= j < |r| ==> r[j] in r;
    RemoveByIdAbsent(r, id);
  }

  lemma RemoveByIdAppend(a: seq<Item>, x: Item, id: string)
    ensures RemoveById(a + [x], id) == RemoveById(a, id) + (if x.id == Some(id) then [] else [x])
  {
    assert (a + [x])[..|a|] == a;
  }

  lemma RequestCountSingle(x: Item)
    ensures RequestCount([x]) == ItemWeight(x)
  {
    assert [x][..0] == [];
  }

  /** Deleting a folder lowers the counter by exactly what the removed items counted for. */
  lemma {:induction false} RemoveByIdCount(items: seq<Item>, id: string)
    ensures RequestCount(RemoveById(items, id)) + RequestCount(OnlyId(items, id)) == RequestCount(items)
    decreases |items|
  {
    if items != [] {
      var init := items[..|items| - 1];
      var last := items[|items| - 1];
      RemoveByIdCount(init, id);
      RequestCountSingle(last);
      if last.id == Some(id) {
        assert RemoveById(items, id) == RemoveById(init, id);
        assert OnlyId(items, id) == OnlyId(init, id) + [last];
        RequestCountAppend(OnlyId(init, id), [last]);
      } else {
        assert RemoveById(items, id) == RemoveById(init, id) + [last];
        assert OnlyId(items, id) == OnlyId(init, id);
        RequestCountAppend(RemoveById(init, id), [last]);
      }
    }
  }

  /** The items with the id, in order. */
  function OnlyId(items: seq<Item>, id: string): seq<Item>
    decreases |items|
  {
    if items == [] then []
    else OnlyId(items[..|items| - 1], id) + (if items[|items| - 1].id == Some(id) then [items[|items| - 1]] else [])
  }
}
