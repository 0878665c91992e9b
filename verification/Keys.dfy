/** Object keys: live user keys, and the reserved trash and version trees. */
module Keys {
  import opened Base

  const TRASH := ".trash/"
  const VERSIONS := ".versions/"

  predicate Reserved(key: string) {
    TRASH <= key || VERSIONS <= key
  }

  predicate ValidUserKey(key: string) {
    key != "" && key != ".trash" && key != ".versions" && !Reserved(key)
  }

  function ToTrashKey(key: string): string {
    TRASH + key
  }

  function FromTrashKey(key: string): Option<string> {
    if !(TRASH <= key) then None
    else if key[|TRASH|..] == "" then None
    else Some(key[|TRASH|..])
  }

  /** Ends with a slash and is more than slashes. */
  predicate IsDirectoryKey(key: string) {
    key != "" && key[|key| - 1] == '/' && exists i :: 0 <= i < |key| && key[i] != '/'
  }

  /** The keys users may not have: the empty one, and the two reserved directories with all that is in them. */
  lemma ValidKeysAreOutsideTheTrees(key: string)
    ensures ValidUserKey(key) <==> key != "" && !(".trash/" <= key + "/") && !(".versions/" <= key + "/")
  {
    EndsAtSlash(key, TRASH);
    EndsAtSlash(key, VERSIONS);
    assert TRASH[..|TRASH| - 1] == ".trash" && VERSIONS[..|VERSIONS| - 1] == ".versions";
  }

  lemma EndsAtSlash(key: string, tree: string)
    requires tree != "" && tree[|tree| - 1] == '/'
    ensures tree <= key + "/" <==> tree <= key || key == tree[..|tree| - 1]
  {
    if tree <= key + "/" && !(tree <= key) {
      assert |key| + 1 == |tree|;
      assert key + "/" == tree;
    }
    if key == tree[..|tree| - 1] {
      assert key + "/" == tree;
    }
  }

  /** A directory key is a name, whatever slashes it has, with a slash at its end. */
  lemma DirectoryKeysAreNamesWithASlash(key: string)
    ensures IsDirectoryKey(key) <==> exists name: string, c :: key == name + "/" && c in name && c != '/'
    ensures forall name: string, c :: c in name && c != '/' ==>
      IsDirectoryKey(name + "/") && (name[|name| - 1] != '/' ==> !IsDirectoryKey(name))
  {
    if IsDirectoryKey(key) {
      var name := key[..|key| - 1];
      var i :| 0 <= i < |key| && key[i] != '/';
      assert key == name + "/" && name[i] in name;
    }
    forall name: string, c | c in name && c != '/' ensures IsDirectoryKey(name + "/") {
      var i :| 0 <= i < |name| && name[i] == c;
      assert (name + "/")[i] != '/';
    }
  }

  /** Trashing is reversible, lands in the trash tree, and keeps keys apart. */
  lemma TrashRoundTrip(key: string, other: string)
    ensures TRASH <= ToTrashKey(key) && !ValidUserKey(ToTrashKey(key))
    ensures FromTrashKey(ToTrashKey(key)) == if key == "" then None else Some(key)
    ensures ToTrashKey(key) == ToTrashKey(other) ==> key == other
    ensures forall t :: FromTrashKey(t).Some? ==> ToTrashKey(FromTrashKey(t).value) == t
  {
    assert ToTrashKey(key)[|TRASH|..] == key && ToTrashKey(other)[|TRASH|..] == other;
    forall t | FromTrashKey(t).Some? ensures ToTrashKey(FromTrashKey(t).value) == t {
      assert t[..|TRASH|] == TRASH;
    }
  }

  /** Nothing below a valid directory is reserved, so a directory delete cannot reach the trash. */
  lemma ChildrenOfValidDirectoriesAreValid(dir: string, child: string)
    requires ValidUserKey(dir) && IsDirectoryKey(dir) && dir <= child
    ensures ValidUserKey(child)
  {
    NotUnder(dir, child, TRASH);
    NotUnder(dir, child, VERSIONS);
    assert child[|dir| - 1] == '/';
  }

  /** A key ending in a slash that is not inside tree/ has no descendants inside it. */
  lemma NotUnder(dir: string, child: string, tree: string)
    requires dir != "" && dir[|dir| - 1] == '/' && dir <= child && !(tree <= dir)
    requires tree != "" && '/' !in tree[..|tree| - 1]
    ensures !(tree <= child)
  {
    if |dir| < |tree| {
      assert tree[|dir| - 1] == tree[..|tree| - 1][|dir| - 1];
      assert child[|dir| - 1] == '/';
    }
  }
}
