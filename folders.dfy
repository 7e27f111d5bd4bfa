/**
 * The folder table of the web UI backend: folder records owned by a user,
 * nested through an optional parent id, looked up with equality filters
 * that always include the owner, and updated one field at a time.
 */
module Folders {
  import opened Wrappers

  /** The `items` payload: optional lists of chat ids and file ids. */
  datatype FolderItems = FolderItems(chatIds: Option<seq<string>>, fileIds: Option<seq<string>>)

  /** The free-form `meta` payload, with its values abstracted to strings. */
  type Meta = map<string, string>

  /** One row of the `folder` table. */
  datatype Folder = Folder(
    id: string,
    parentId: Option<string>,
    userId: string,
    name: string,
    items: Option<FolderItems>,
    meta: Option<Meta>,
    createdAt: int,
    updatedAt: int)

  // ---------------------------------------------------------------------
  // Lower-casing of the name argument (`name.lower()`), on ASCII letters
  // ---------------------------------------------------------------------

  predicate IsUpper(c: char) {
    'A' <= c <= 'Z'
  }

  predicate HasUpper(s: string) {
    exists i :: 0 <= i < |s| && IsUpper(s[i])
  }

  function LowerChar(c: char): char {
    if IsUpper(c) then (c as int + 32) as char else c
  }

  /**
   * `s.lower()`: each upper-case ASCII letter becomes its lower-case counterpart (32
   * code points on) and every other character is kept, so no upper-case letter is left
   * and a lower-case string is its own lower case.
   */
  function Lower(s: string): (r: string)
    ensures |r| == |s|
    ensures forall i :: 0 <= i < |s| ==>
      && (IsUpper(s[i]) ==> 'a' <= r[i] <= 'z' && r[i] as int == s[i] as int + 32)
      && (!IsUpper(s[i]) ==> r[i] == s[i])
    ensures !HasUpper(r)
    ensures !HasUpper(s) ==> r == s
  {
    seq(|s|, i requires 0 <= i < |s| => LowerChar(s[i]))
  }

  // ---------------------------------------------------------------------
  // Queries: `db.query(Folder).filter_by(...)` with `.first()` or `.all()`
  // ---------------------------------------------------------------------

  /** Whether a query constrains `parent_id`, and to which value (`None` is SQL `IS NULL`). */
  datatype ParentFilter = AnyParent | ParentIs(parentId: Option<string>)

  /** The equality constraints of one `filter_by(...)` call; every query of the table constrains `user_id`. */
  datatype Filter = Filter(id: Option<string>, parent: ParentFilter, userId: string, name: Option<string>)

  predicate Matches(f: Folder, q: Filter) {
    && f.userId == q.userId
    && (q.id.Some? ==> f.id == q.id.value)
    && (q.parent.ParentIs? ==> f.parentId == q.parent.parentId)
    && (q.name.Some? ==> f.name == q.name.value)
  }

  function ById(id: string, userId: string): Filter {
    Filter(Some(id), AnyParent, userId, None)
  }

  /** The position of the first row the filter matches, if any (`.first()`). */
  function FirstIndex(rows: seq<Folder>, q: Filter): (k: Option<nat>)
    ensures k.Some? ==> k.value < |rows| && Matches(rows[k.value], q)
    ensures k.Some? ==> forall j :: 0 <= j < k.value ==> !Matches(rows[j], q)
    ensures k.None? ==> forall j :: 0 <= j < |rows| ==> !Matches(rows[j], q)
  {
    if |rows| == 0 then None
    else if Matches(rows[0], q) then Some(0)
    else match FirstIndex(rows[1..], q)
      case None => None
      case Some(k) => Some(k + 1)
  }

  /** The first row the filter matches, if any. */
  function First(rows: seq<Folder>, q: Filter): (r: Option<Folder>)
    ensures r.Some? ==> r.value in rows && Matches(r.value, q)
    ensures r.None? <==> forall f :: f in rows ==> !Matches(f, q)
  {
    match FirstIndex(rows, q)
    case None => None
    case Some(k) => Some(rows[k])
  }

  /** All rows the filter matches, in storage order (`.all()`), each as often as it is stored. */
  function Select(rows: seq<Folder>, q: Filter): (r: seq<Folder>)
    ensures |r| <= |rows|
    ensures forall f :: f in r <==> f in rows && Matches(f, q)
    ensures forall f :: multiset(r)[f] == if Matches(f, q) then multiset(rows)[f] else 0
  {
    if |rows| == 0 then []
    else
      assert rows == [rows[0]] + rows[1..];
      (if Matches(rows[0], q) then [rows[0]] else []) + Select(rows[1..], q)
  }

  // ---------------------------------------------------------------------
  // The four lookups of FolderTable, over the table's rows
  // ---------------------------------------------------------------------

  /** `get_folder_by_id_and_user_id`: a folder is returned only to its owner. */
  function GetFolderByIdAndUserId(rows: seq<Folder>, id: string, userId: string): (r: Option<Folder>)
    ensures r.Some? ==> r.value in rows && r.value.id == id && r.value.userId == userId
    ensures r.None? <==> forall f :: f in rows ==> f.id != id || f.userId != userId
  {
    First(rows, ById(id, userId))
  }

  /** `get_folders_by_user_id`: exactly the folders of one user. */
  function GetFoldersByUserId(rows: seq<Folder>, userId: string): (r: seq<Folder>)
    ensures forall f :: f in r <==> f in rows && f.userId == userId
    ensures forall f :: multiset(r)[f] == if f.userId == userId then multiset(rows)[f] else 0
  {
    Select(rows, Filter(None, AnyParent, userId, None))
  }

  /**
   * `get_folder_by_parent_id_and_user_id_and_name`: a sibling whose stored name
   * equals the lower-cased argument.
   */
  function GetFolderByParentIdAndUserIdAndName(rows: seq<Folder>, parentId: Option<string>, userId: string, name: string): (r: Option<Folder>)
    ensures r.Some? ==> r.value in rows && r.value.parentId == parentId && r.value.userId == userId && r.value.name == Lower(name)
    ensures r.None? <==> forall f :: f in rows ==> f.parentId != parentId || f.userId != userId || f.name != Lower(name)
  {
    First(rows, Filter(None, ParentIs(parentId), userId, Some(Lower(name))))
  }

  /** `get_folders_by_parent_id_and_user_id`: exactly the children of one parent (the root folders for `None`). */
  function GetFoldersByParentIdAndUserId(rows: seq<Folder>, parentId: Option<string>, userId: string): (r: seq<Folder>)
    ensures forall f :: f in r <==> f in rows && f.parentId == parentId && f.userId == userId
    ensures forall f :: multiset(r)[f] == if f.parentId == parentId && f.userId == userId then multiset(rows)[f] else 0
  {
    Select(rows, Filter(None, ParentIs(parentId), userId, None))
  }

  // ---------------------------------------------------------------------
  // Table invariants
  // ---------------------------------------------------------------------

  /** `id` is the primary key. */
  predicate UniqueIds(rows: seq<Folder>) {
    forall i, j :: 0 <= i < j < |rows| ==> rows[i].id != rows[j].id
  }

  /** No two folders of one user under one parent share a name (the rule rename keeps). */
  predicate SiblingNamesUnique(rows: seq<Folder>) {
    forall i, j :: 0 <= i < j < |rows| && rows[i].userId == rows[j].userId && rows[i].parentId == rows[j].parentId ==>
      rows[i].name != rows[j].name
  }

  /** Some folder of `userId` under `parentId` is called `name`. */
  predicate SiblingNamed(rows: seq<Folder>, name: string, parentId: Option<string>, userId: string) {
    exists f :: f in rows && f.name == name && f.parentId == parentId && f.userId == userId
  }

  /** `after` is `before` with the record whose id is `id` replaced by `f`, and nothing else changed. */
  predicate OnlyChanged(before: seq<Folder>, after: seq<Folder>, id: string, f: Folder) {
    && |after| == |before|
    && forall j :: 0 <= j < |before| ==> after[j] == (if before[j].id == id then f else before[j])
  }

  // ---------------------------------------------------------------------
  // The updates, as functions of the table's rows
  // ---------------------------------------------------------------------

  /** The rows after an update and the folder it returns (`None` when nothing changed). */
  datatype Update = Update(rows: seq<Folder>, result: Option<Folder>)

  /**
   * `update_folder_parent_id_by_id_and_user_id`: only `parent_id` and `updated_at`
   * of the owner's folder change; the new parent is not checked at all.
   */
  function MoveFolder(rows: seq<Folder>, id: string, userId: string, parentId: Option<string>, now: int): (r: Update)
    requires UniqueIds(rows)
    ensures UniqueIds(r.rows)
    ensures r.result.None? <==> GetFolderByIdAndUserId(rows, id, userId).None?
    ensures r.result.None? ==> r.rows == rows
    ensures r.result.Some? ==>
      && r.result.value == GetFolderByIdAndUserId(rows, id, userId).value.(parentId := parentId, updatedAt := now)
      && OnlyChanged(rows, r.rows, id, r.result.value)
  {
    match FirstIndex(rows, ById(id, userId))
    case None => Update(rows, None)
    case Some(k) =>
      var f := rows[k].(parentId := parentId, updatedAt := now);
      Update(rows[k := f], Some(f))
  }

  /**
   * `update_folder_name_by_id_and_user_id`: refused when any folder of the user under
   * the same parent already has the name (the target itself included); otherwise only
   * `name` and `updated_at` change.
   */
  function RenameFolder(rows: seq<Folder>, id: string, userId: string, name: string, now: int): (r: Update)
    requires UniqueIds(rows)
    ensures UniqueIds(r.rows)
    ensures r.result.None? <==>
      || GetFolderByIdAndUserId(rows, id, userId).None?
      || SiblingNamed(rows, name, GetFolderByIdAndUserId(rows, id, userId).value.parentId, userId)
    ensures r.result.None? ==> r.rows == rows
    ensures r.result.Some? ==>
      && r.result.value == GetFolderByIdAndUserId(rows, id, userId).value.(name := name, updatedAt := now)
      && OnlyChanged(rows, r.rows, id, r.result.value)
  {
    match FirstIndex(rows, ById(id, userId))
    case None => Update(rows, None)
    case Some(k) =>
      if First(rows, Filter(None, ParentIs(rows[k].parentId), userId, Some(name))).Some? then
        Update(rows, None)
      else
        var f := rows[k].(name := name, updatedAt := now);
        Update(rows[k := f], Some(f))
  }

  /** `update_folder_items_by_id_and_user_id`: `items` is replaced as a whole, and only it and `updated_at` change. */
  function ReplaceFolderItems(rows: seq<Folder>, id: string, userId: string, items: FolderItems, now: int): (r: Update)
    requires UniqueIds(rows)
    ensures UniqueIds(r.rows)
    ensures r.result.None? <==> GetFolderByIdAndUserId(rows, id, userId).None?
    ensures r.result.None? ==> r.rows == rows
    ensures r.result.Some? ==>
      && r.result.value == GetFolderByIdAndUserId(rows, id, userId).value.(items := Some(items), updatedAt := now)
      && OnlyChanged(rows, r.rows, id, r.result.value)
  {
    match FirstIndex(rows, ById(id, userId))
    case None => Update(rows, None)
    case Some(k) =>
      var f := rows[k].(items := Some(items), updatedAt := now);
      Update(rows[k := f], Some(f))
  }

  /** `delete_folder_by_id_and_user_id`: removes exactly the owner's folder with that id, if there is one. */
  function DeleteFolder(rows: seq<Folder>, id: string, userId: string): (r: seq<Folder>)
    requires UniqueIds(rows)
    ensures UniqueIds(r)
    ensures GetFolderByIdAndUserId(rows, id, userId).None? ==> r == rows
    ensures GetFolderByIdAndUserId(rows, id, userId).Some? ==>
      && |r| == |rows| - 1
      && forall f :: f in r <==> f in rows && f.id != id
  {
    match FirstIndex(rows, ById(id, userId))
    case None => rows
    case Some(k) => rows[..k] + rows[k + 1..]
  }

  // ---------------------------------------------------------------------
  // The table object
  // ---------------------------------------------------------------------

  /** `FolderTable`: the folder rows, changed in place by its methods. */
  class FolderTable {
    var rows: seq<Folder>

    ghost predicate Valid()
      reads this
    {
      UniqueIds(rows)
    }

    constructor ()
      ensures Valid() && rows == []
    {
      rows := [];
    }

    /**
     * `insert_new_folder`, with the fresh `uuid4()` id and the two clock readings
     * (`created_at` first, then `updated_at`) as parameters: appends one folder with
     * no items and no meta.
     */
    method InsertNewFolder(id: string, userId: string, name: string, parentId: Option<string>, createdNow: int, updatedNow: int)
      returns (r: Option<Folder>)
      requires Valid()
      requires forall f :: f in rows ==> f.id != id
      requires createdNow <= updatedNow
      modifies this
      ensures Valid()
      ensures r.Some?
      ensures r.value.id == id && r.value.userId == userId && r.value.name == name && r.value.parentId == parentId
      ensures r.value.items.None? && r.value.meta.None?
      ensures r.value.createdAt == createdNow && r.value.updatedAt == updatedNow
      ensures r.value.createdAt <= r.value.updatedAt
      ensures rows == old(rows) + [r.value]
    {
      var folder := Folder(id, parentId, userId, name, None, None, createdNow, updatedNow);
      rows := rows + [folder];
      r := Some(folder);
    }

    /** `update_folder_parent_id_by_id_and_user_id`. */
    method UpdateFolderParentIdByIdAndUserId(id: string, userId: string, parentId: Option<string>, now: int)
      returns (r: Option<Folder>)
      requires Valid()
      modifies this
      ensures Valid()
      ensures Update(rows, r) == MoveFolder(old(rows), id, userId, parentId, now)
    {
      var k := FirstIndex(rows, ById(id, userId));
      if k.None? {
        return None;
      }
      var folder := rows[k.value];
      folder := folder.(parentId := parentId, updatedAt := now);
      rows := rows[k.value := folder];
      r := Some(folder);
    }

    /** `update_folder_name_by_id_and_user_id`. */
    method UpdateFolderNameByIdAndUserId(id: string, userId: string, name: string, now: int)
      returns (r: Option<Folder>)
      requires Valid()
      modifies this
      ensures Valid()
      ensures Update(rows, r) == RenameFolder(old(rows), id, userId, name, now)
    {
      var k := FirstIndex(rows, ById(id, userId));
      if k.None? {
        return None;
      }
      var folder := rows[k.value];
      var existing := First(rows, Filter(None, ParentIs(folder.parentId), userId, Some(name)));
      if existing.Some? {
        return None;
      }
      folder := folder.(name := name, updatedAt := now);
      rows := rows[k.value := folder];
      r := Some(folder);
    }

    /** `update_folder_items_by_id_and_user_id`. */
    method UpdateFolderItemsByIdAndUserId(id: string, userId: string, items: FolderItems, now: int)
      returns (r: Option<Folder>)
      requires Valid()
      modifies this
      ensures Valid()
      ensures Update(rows, r) == ReplaceFolderItems(old(rows), id, userId, items, now)
    {
      var k := FirstIndex(rows, ById(id, userId));
      if k.None? {
        return None;
      }
      var folder := rows[k.value];
      folder := folder.(items := Some(items), updatedAt := now);
      rows := rows[k.value := folder];
      r := Some(folder);
    }

    /** `delete_folder_by_id_and_user_id`: `false` when no folder matched (`db.delete(None)` raises). */
    method DeleteFolderByIdAndUserId(id: string, userId: string) returns (ok: bool)
      requires Valid()
      modifies this
      ensures Valid()
      ensures ok <==> GetFolderByIdAndUserId(old(rows), id, userId).Some?
      ensures rows == DeleteFolder(old(rows), id, userId)
    {
      var k := FirstIndex(rows, ById(id, userId));
      if k.None? {
        return false;
      }
      rows := rows[..k.value] + rows[k.value + 1..];
      ok := true;
    }
  }
}
