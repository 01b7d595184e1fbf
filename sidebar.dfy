/**
 * The folder part of the sidebar: adding a folder by name, deleting one by
 * dragging it onto the trash area or by its delete button. The callbacks
 * `onAddFolder` and `onDeleteFolder` are modelled as the values the handlers
 * return: `Some(name)` when the callback is called with `name`, `None` when
 * it is not. `window.confirm` is the `confirmed` parameter.
 */
module Sidebar {
  import opened Wrappers
  import opened Collections
  import opened Records

  /** The characters `String.prototype.trim` removes: ECMAScript white space and line terminators. */
  predicate IsWhiteSpace(c: char) {
    || c == '\t' || c == '\n' || c == '\U{B}' || c == '\U{C}' || c == '\r' || c == ' '
    || c == '\U{A0}' || c == '\U{1680}' || ('\U{2000}' <= c <= '\U{200A}')
    || c == '\U{2028}' || c == '\U{2029}' || c == '\U{202F}' || c == '\U{205F}'
    || c == '\U{3000}' || c == '\U{FEFF}'
  }

  /** The first index from `i` on that does not hold white space, or `|s|`. */
  function SkipLeading(s: string, i: nat): (r: nat)
    requires i <= |s|
    ensures i <= r <= |s|
    ensures forall k | i <= k < r :: IsWhiteSpace(s[k])
    ensures r == |s| || !IsWhiteSpace(s[r])
    decreases |s| - i
  {
    if i < |s| && IsWhiteSpace(s[i]) then SkipLeading(s, i + 1) else i
  }

  /** The end of `s[lo..j]` once its trailing white space is dropped. */
  function SkipTrailing(s: string, lo: nat, j: nat): (r: nat)
    requires lo <= j <= |s|
    ensures lo <= r <= j
    ensures forall k | r <= k < j :: IsWhiteSpace(s[k])
    ensures r == lo || !IsWhiteSpace(s[r - 1])
  {
    if lo < j && IsWhiteSpace(s[j - 1]) then SkipTrailing(s, lo, j - 1) else j
  }

  /**
   * `String.prototype.trim`: the part of `s` left after removing white space
   * from both ends; empty exactly when `s` is all white space, and otherwise
   * neither starting nor ending with white space.
   */
  function Trim(s: string): (r: string)
    ensures exists i, j ::
              && 0 <= i <= j <= |s| && r == s[i..j]
              && (forall k | 0 <= k < i :: IsWhiteSpace(s[k]))
              && (forall k | j <= k < |s| :: IsWhiteSpace(s[k]))
    ensures r == [] <==> forall k | 0 <= k < |s| :: IsWhiteSpace(s[k])
    ensures r == [] || (!IsWhiteSpace(r[0]) && !IsWhiteSpace(r[|r| - 1]))
  {
    var i := SkipLeading(s, 0);
    var j := SkipTrailing(s, i, |s|);
    s[i..j]
  }

  /** Trimming a trimmed name changes nothing. */
  lemma TrimIdempotent(s: string)
    ensures Trim(Trim(s)) == Trim(s)
  {
    var t := Trim(s);
    if t != [] {
      assert SkipLeading(t, 0) == 0;
      assert SkipTrailing(t, 0, |t|) == |t|;
      assert t[0..|t|] == t;
    }
  }

  /** The guard of `handleAddFolder`: a non-empty trimmed name that is not yet a folder (exact comparison). */
  predicate CanAddFolder(name: string, folders: seq<string>) {
    Trim(name) != [] && Trim(name) !in folders
  }

  /** The folders that get a delete button: the non-default ones, in list order. */
  function DeleteButtons(folders: seq<string>): (r: seq<string>)
    ensures forall f :: f in r <==> f in folders && !IsDefaultFolder(f)
  {
    var r := Filter(folders, (f: string) => !IsDefaultFolder(f));
    forall f ensures f in r <==> f in folders && !IsDefaultFolder(f) {
      FilterMembership(folders, (f: string) => !IsDefaultFolder(f), f);
    }
    r
  }

  /** Whether a folder row is draggable: only non-default folders are. */
  predicate IsDraggable(folder: string) {
    !IsDefaultFolder(folder)
  }

  /** JavaScript truthiness of `draggedFolder`: set and not the empty string. */
  predicate IsTruthy(name: Option<string>) {
    name.Some? && name.value != ""
  }

  /** The sidebar's own state. */
  class SidebarState {
    var showAddFolder: bool
    var newFolderName: string
    var draggedFolder: Option<string>
    var isDragOverTrash: bool

    /** Only a non-default folder is ever being dragged. */
    ghost predicate Valid()
      reads this
    {
      draggedFolder.Some? ==> !IsDefaultFolder(draggedFolder.value)
    }

    constructor ()
      ensures Valid()
      ensures !showAddFolder && newFolderName == "" && draggedFolder == None && !isDragOverTrash
    {
      showAddFolder, newFolderName, draggedFolder, isDragOverTrash := false, "", None, false;
    }

    /** The "+" button: opens the new-folder input. */
    method OpenAddFolder()
      requires Valid()
      modifies this`showAddFolder
      ensures Valid() && showAddFolder
    {
      showAddFolder := true;
    }

    /** Typing in the new-folder input. */
    method EditNewFolderName(text: string)
      requires Valid()
      modifies this`newFolderName
      ensures Valid() && newFolderName == text
    {
      newFolderName := text;
    }

    /** The cancel button: closes the input and forgets the name. */
    method CancelAddFolder()
      requires Valid()
      modifies this`showAddFolder, this`newFolderName
      ensures Valid() && !showAddFolder && newFolderName == ""
    {
      showAddFolder, newFolderName := false, "";
    }

    /**
     * `handleAddFolder`: calls `onAddFolder` with the trimmed name when it is
     * non-empty and not already a folder, then clears and closes the input;
     * otherwise does nothing at all.
     */
    method HandleAddFolder(folders: seq<string>) returns (added: Option<string>)
      requires Valid()
      modifies this`showAddFolder, this`newFolderName
      ensures Valid()
      ensures added.Some? <==> CanAddFolder(old(newFolderName), folders)
      ensures added.Some? ==>
        added.value == Trim(old(newFolderName)) && added.value != "" && added.value !in folders &&
        newFolderName == "" && !showAddFolder
      ensures added.None? ==> newFolderName == old(newFolderName) && showAddFolder == old(showAddFolder)
    {
      var name := Trim(newFolderName);
      if name != "" && name !in folders {
        added := Some(name);
        newFolderName := "";
        showAddFolder := false;
      } else {
        added := None;
      }
    }

    /** `handleDeleteFolder`: calls `onDeleteFolder` when the user confirms. */
    method HandleDeleteFolder(folderName: string, confirmed: bool) returns (deleted: Option<string>)
      ensures deleted.Some? <==> confirmed
      ensures deleted.Some? ==> deleted.value == folderName
    {
      deleted := if confirmed then Some(folderName) else None;
    }

    /**
     * A click on the delete button of the folder at `index`: only non-default
     * folders have one, so only they can be deleted this way.
     */
    method ClickDeleteButton(folders: seq<string>, index: nat, confirmed: bool) returns (deleted: Option<string>)
      requires index < |DeleteButtons(folders)|
      ensures deleted.Some? <==> confirmed
      ensures deleted.Some? ==> deleted.value in folders && !IsDefaultFolder(deleted.value)
    {
      var buttons := DeleteButtons(folders);
      assert buttons[index] in buttons;
      deleted := HandleDeleteFolder(buttons[index], confirmed);
    }

    /**
     * `handleDragStart`: a default folder cannot be dragged (the drag is
     * cancelled and no payload is set); any other folder becomes the dragged
     * folder and the drag's payload.
     */
    method HandleDragStart(folderName: string) returns (payload: Option<string>)
      requires Valid()
      modifies this`draggedFolder
      ensures Valid()
      ensures !IsDraggable(folderName) ==> payload == None && draggedFolder == old(draggedFolder)
      ensures IsDraggable(folderName) ==> payload == Some(folderName) && draggedFolder == Some(folderName)
    {
      if !IsDraggable(folderName) {
        return None;
      }
      draggedFolder := Some(folderName);
      payload := Some(folderName);
    }

    /** `handleDragEnd`: the drag is over. */
    method HandleDragEnd()
      requires Valid()
      modifies this`draggedFolder, this`isDragOverTrash
      ensures Valid() && draggedFolder == None && !isDragOverTrash
    {
      draggedFolder := None;
      isDragOverTrash := false;
    }

    /** `handleDragOver`: the cursor is over the trash area. */
    method HandleDragOver()
      requires Valid()
      modifies this`isDragOverTrash
      ensures Valid() && isDragOverTrash
    {
      isDragOverTrash := true;
    }

    /**
     * `handleDragLeave`: `stillInside` says whether the element the cursor
     * moved to lies within the trash area.
     */
    method HandleDragLeave(stillInside: bool)
      requires Valid()
      modifies this`isDragOverTrash
      ensures Valid()
      ensures isDragOverTrash == (old(isDragOverTrash) && stillInside)
    {
      if !stillInside {
        isDragOverTrash := false;
      }
    }

    /**
     * `handleDrop` on the trash area, with the drag's text payload (empty when
     * there is none): asks to delete the payload's folder only while a folder
     * is being dragged, and always ends the drag.
     */
    method HandleDrop(payload: string, confirmed: bool) returns (deleted: Option<string>)
      requires Valid()
      modifies this`draggedFolder, this`isDragOverTrash
      ensures Valid() && draggedFolder == None && !isDragOverTrash
      ensures deleted.Some? <==> payload != "" && IsTruthy(old(draggedFolder)) && confirmed
      ensures deleted.Some? ==> deleted.value == payload
      ensures deleted.Some? && old(draggedFolder) == Some(payload) ==> !IsDefaultFolder(payload)
    {
      deleted := None;
      if payload != "" && IsTruthy(draggedFolder) {
        deleted := HandleDeleteFolder(payload, confirmed);
      }
      isDragOverTrash := false;
      draggedFolder := None;
    }
  }

  /**
   * A drag begun on a folder row and dropped on the trash deletes, at most,
   * that folder, and never a default one.
   */
  method DragToTrash(sidebar: SidebarState, folderName: string, confirmed: bool) returns (deleted: Option<string>)
    requires sidebar.Valid()
    modifies sidebar
    ensures sidebar.Valid() && sidebar.draggedFolder == None && !sidebar.isDragOverTrash
    ensures deleted.Some? ==> deleted.value == folderName && !IsDefaultFolder(folderName)
    ensures deleted.Some? <==> !IsDefaultFolder(folderName) && folderName != "" && confirmed
  {
    var payload := sidebar.HandleDragStart(folderName);
    sidebar.HandleDragOver();
    var text := if payload.Some? then payload.value else "";
    deleted := sidebar.HandleDrop(text, confirmed);
  }
}
