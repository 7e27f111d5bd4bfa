/** Properties of the folder table: owner scoping, insert/lookup/delete round trips, rename's sibling rule. */
module FolderLemmas {
  import opened Wrappers
  import opened Folders

  /** A folder is found by its id for its owner, and for nobody else. */
  lemma LookupIsScopedByOwner(rows: seq<Folder>, f: Folder, userId: string)
    requires UniqueIds(rows) && f in rows
    ensures GetFolderByIdAndUserId(rows, f.id, f.userId) == Some(f)
    ensures userId != f.userId ==> GetFolderByIdAndUserId(rows, f.id, userId).None?
  {
  }

  /** Listing a user's folders and looking each one up by id agree. */
  lemma ListingAgreesWithLookup(rows: seq<Folder>, f: Folder, userId: string)
    requires UniqueIds(rows)
    ensures f in GetFoldersByUserId(rows, userId) <==> GetFolderByIdAndUserId(rows, f.id, userId) == Some(f)
  {
  }

  /** A fresh insert keeps the primary key and is found by its owner. */
  lemma InsertThenGet(rows: seq<Folder>, f: Folder)
    requires UniqueIds(rows)
    requires forall g :: g in rows ==> g.id != f.id
    ensures UniqueIds(rows + [f])
    ensures GetFolderByIdAndUserId(rows + [f], f.id, f.userId) == Some(f)
  {
  }

  /** A fresh insert changes no other lookup by id. */
  lemma InsertKeepsOtherLookups(rows: seq<Folder>, f: Folder, id: string, userId: string)
    requires UniqueIds(rows)
    requires forall g :: g in rows ==> g.id != f.id
    requires id != f.id
    ensures GetFolderByIdAndUserId(rows + [f], id, userId) == GetFolderByIdAndUserId(rows, id, userId)
  {
  }

  /** Deleting a freshly inserted folder restores the table. */
  lemma InsertThenDelete(rows: seq<Folder>, f: Folder)
    requires UniqueIds(rows)
    requires forall g :: g in rows ==> g.id != f.id
    ensures UniqueIds(rows + [f])
    ensures DeleteFolder(rows + [f], f.id, f.userId) == rows
  {
  }

  /** Deleting someone else's folder fails and leaves the table as it was. */
  lemma DeleteIsScopedByOwner(rows: seq<Folder>, f: Folder, userId: string)
    requires UniqueIds(rows) && f in rows
    requires userId != f.userId
    ensures GetFolderByIdAndUserId(rows, f.id, userId).None?
    ensures DeleteFolder(rows, f.id, userId) == rows
  {
  }

  /** Renaming a folder to its current name is refused: the folder is its own sibling. */
  lemma RenameToCurrentNameFails(rows: seq<Folder>, id: string, userId: string, now: int)
    requires UniqueIds(rows)
    requires GetFolderByIdAndUserId(rows, id, userId).Some?
    ensures RenameFolder(rows, id, userId, GetFolderByIdAndUserId(rows, id, userId).value.name, now) == Update(rows, None)
  {
  }

  /** Rename keeps sibling names unique, whatever the new name. */
  lemma RenameKeepsSiblingNamesUnique(rows: seq<Folder>, id: string, userId: string, name: string, now: int)
    requires UniqueIds(rows) && SiblingNamesUnique(rows)
    ensures SiblingNamesUnique(RenameFolder(rows, id, userId, name, now).rows)
  {
  }

  /**
   * Creation does not check sibling names: inserting a folder with the name, owner
   * and parent of a stored one keeps the primary key but breaks sibling uniqueness.
   */
  lemma InsertMayDuplicateSiblingName(rows: seq<Folder>, f: Folder, id: string, createdNow: int, updatedNow: int)
    requires UniqueIds(rows) && f in rows
    requires forall g :: g in rows ==> g.id != id
    ensures var added := Folder(id, f.parentId, f.userId, f.name, None, None, createdNow, updatedNow);
            UniqueIds(rows + [added]) && !SiblingNamesUnique(rows + [added])
  {
    var added := Folder(id, f.parentId, f.userId, f.name, None, None, createdNow, updatedNow);
    var after := rows + [added];
    var i :| 0 <= i < |rows| && rows[i] == f;
    assert after[i] == f && after[|rows|] == added;
  }

  /** Moving does not check sibling names either: a folder can join a same-named sibling. */
  lemma MoveMayDuplicateSiblingName()
    ensures var a := Folder("a", None, "u1", "Work", None, None, 0, 0);
            var b := Folder("b", Some("p"), "u1", "Work", None, None, 0, 0);
            SiblingNamesUnique([a, b]) && !SiblingNamesUnique(MoveFolder([a, b], "b", "u1", None, 1).rows)
  {
  }

  /** Moving has no cycle check: a folder may become its own parent. */
  lemma MoveAllowsCycle(rows: seq<Folder>, f: Folder, now: int)
    requires UniqueIds(rows) && f in rows
    ensures MoveFolder(rows, f.id, f.userId, Some(f.id), now).result == Some(f.(parentId := Some(f.id), updatedAt := now))
  {
  }

  /** Items are replaced, never merged: of two replacements only the last is visible. */
  lemma ReplaceItemsLastWins(rows: seq<Folder>, id: string, userId: string, a: FolderItems, b: FolderItems, t1: int, t2: int)
    requires UniqueIds(rows)
    ensures ReplaceFolderItems(ReplaceFolderItems(rows, id, userId, a, t1).rows, id, userId, b, t2)
         == ReplaceFolderItems(rows, id, userId, b, t2)
  {
  }

  /** The name lookup never returns a folder whose stored name has an upper-case letter. */
  lemma NameLookupMissesUpperCase(rows: seq<Folder>, f: Folder, name: string)
    requires HasUpper(f.name)
    ensures GetFolderByParentIdAndUserIdAndName(rows, f.parentId, f.userId, name) != Some(f)
  {
  }

  /** The name lookup finds every folder whose stored name is lower case, under any casing of that name. */
  lemma NameLookupFindsLowerCase(rows: seq<Folder>, f: Folder, name: string)
    requires f in rows && !HasUpper(f.name) && Lower(name) == f.name
    ensures GetFolderByParentIdAndUserIdAndName(rows, f.parentId, f.userId, name).Some?
  {
  }

  /**
   * When sibling names are unique, the name lookup returns exactly the folder whose
   * stored lower-case name the argument lower-cases to.
   */
  lemma NameLookupFindsTheFolder(rows: seq<Folder>, f: Folder, name: string)
    requires SiblingNamesUnique(rows)
    requires f in rows && !HasUpper(f.name) && Lower(name) == f.name
    ensures GetFolderByParentIdAndUserIdAndName(rows, f.parentId, f.userId, name) == Some(f)
  {
  }

  /** "Work" lower-cases to "work". */
  lemma LowerOfWork()
    ensures Lower("Work") == "work"
  {
    var r := Lower("Work");
    assert r[0] as int == 'W' as int + 32;
  }

  /** The session table: two root folders "Work" and "Personal" of user u1. */
  function SessionRows(): seq<Folder> {
    [Folder("A", None, "u1", "Work", None, None, 0, 0), Folder("B", None, "u1", "Personal", None, None, 0, 0)]
  }

  /** In the session table, "Personal" is found for its owner. */
  lemma SessionLookup()
    ensures UniqueIds(SessionRows())
    ensures GetFolderByIdAndUserId(SessionRows(), "B", "u1") == Some(SessionRows()[1])
  {
    assert SessionRows()[1..] == [SessionRows()[1]];
  }

  /** Renaming "Personal" to its sibling's name "Work" is refused. */
  lemma SessionRenameToWork()
    ensures UniqueIds(SessionRows())
    ensures RenameFolder(SessionRows(), "B", "u1", "Work", 1) == Update(SessionRows(), None)
  {
    SessionLookup();
    assert SiblingNamed(SessionRows(), "Work", None, "u1") by {
      assert SessionRows()[0] in SessionRows();
    }
  }

  /** Renaming "Personal" to the unused "Play" replaces that one row. */
  lemma SessionRenameToPlay()
    ensures UniqueIds(SessionRows())
    ensures var played := SessionRows()[1].(name := "Play", updatedAt := 2);
            RenameFolder(SessionRows(), "B", "u1", "Play", 2) == Update([SessionRows()[0], played], Some(played))
  {
    SessionLookup();
    var rows := SessionRows();
    assert !SiblingNamed(rows, "Play", None, "u1");
    var r := RenameFolder(rows, "B", "u1", "Play", 2);
    assert r.rows == [rows[0], r.result.value];
  }

  /** The root listing of the renamed session table. */
  lemma RootListingOfSession(a: Folder, b: Folder)
    requires a.parentId == None && a.userId == "u1"
    requires b.parentId == None && b.userId == "u1"
    ensures GetFoldersByParentIdAndUserId([a, b], None, "u1") == [a, b]
  {
    assert [a, b][1..] == [b];
  }

  /**
   * A worked session: two root folders "Work" and "Personal" of user u1; renaming the
   * second to "Work" is refused and leaves the table as it was, to "Play" succeeds,
   * and the root listing then shows "Work" and "Play".
   */
  lemma RenameSession()
    ensures var a := Folder("A", None, "u1", "Work", None, None, 0, 0);
            var b := Folder("B", None, "u1", "Personal", None, None, 0, 0);
            var rows := [a, b];
            && RenameFolder(rows, "B", "u1", "Work", 1) == Update(rows, None)
            && RenameFolder(rows, "B", "u1", "Play", 2) == Update([a, b.(name := "Play", updatedAt := 2)], Some(b.(name := "Play", updatedAt := 2)))
            && GetFoldersByParentIdAndUserId(RenameFolder(rows, "B", "u1", "Play", 2).rows, None, "u1") == [a, b.(name := "Play", updatedAt := 2)]
  {
    var a := Folder("A", None, "u1", "Work", None, None, 0, 0);
    var b := Folder("B", None, "u1", "Personal", None, None, 0, 0);
    assert SessionRows() == [a, b];
    SessionRenameToWork();
    SessionRenameToPlay();
    RootListingOfSession(a, b.(name := "Play", updatedAt := 2));
  }
}
