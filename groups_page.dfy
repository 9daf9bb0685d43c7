/**
 * The group management page (src/app/groups/page.tsx): who may see it, which users are offered
 * as members, the member-selection toggle, and the create-group handler with its blank-name guard.
 */
module GroupsPage {
  import opened Wrappers
  import opened Types
  import opened Lists
  import Storage
  import DataStore

  // ---------------------------------------------------------------------------------------------
  // String.prototype.trim
  // ---------------------------------------------------------------------------------------------

  /** The characters `trim` removes: ECMAScript WhiteSpace and LineTerminator. */
  predicate IsJsWhitespace(c: char) {
    || c == '\t' || c == '\n' || c == '\U{000B}' || c == '\U{000C}' || c == '\r' || c == ' '
    || c == '\U{00A0}' || c == '\U{1680}' || ('\U{2000}' <= c <= '\U{200A}')
    || c == '\U{2028}' || c == '\U{2029}' || c == '\U{202F}' || c == '\U{205F}'
    || c == '\U{3000}' || c == '\U{FEFF}'
  }

  /** Drop the leading whitespace. */
  function TrimStart(s: string): (r: string)
    ensures |r| <= |s| && r == s[|s| - |r|..]
    ensures forall i :: 0 <= i < |s| - |r| ==> IsJsWhitespace(s[i])
    ensures r != [] ==> !IsJsWhitespace(r[0])
  {
    if s != [] && IsJsWhitespace(s[0]) then
      var r := TrimStart(s[1..]);
      assert forall i :: 1 <= i < |s| - |r| ==> s[i] == s[1..][i - 1];
      r
    else s
  }

  /** Drop the trailing whitespace. */
  function TrimEnd(s: string): (r: string)
    ensures |r| <= |s| && r == s[..|r|]
    ensures forall i :: |r| <= i < |s| ==> IsJsWhitespace(s[i])
    ensures r != [] ==> !IsJsWhitespace(r[|r| - 1])
  {
    if s != [] && IsJsWhitespace(s[|s| - 1]) then
      var r := TrimEnd(s[..|s| - 1]);
      assert forall i :: |r| <= i < |s| - 1 ==> s[i] == s[..|s| - 1][i];
      r
    else s
  }

  /** Every character of `s` is whitespace. */
  predicate Blank(s: string) {
    forall i :: 0 <= i < |s| ==> IsJsWhitespace(s[i])
  }

  /** `r` is the slice `s[a..b]`, and everything of `s` outside that slice is whitespace. */
  predicate IsTrimmedSlice(s: string, r: string, a: int, b: int) {
    0 <= a <= b <= |s| && r == s[a..b] && Blank(s[..a]) && Blank(s[b..])
  }

  /** A prefix of `s` whose characters are all whitespace is `Blank`. */
  lemma BlankPrefix(s: string, n: int)
    requires 0 <= n <= |s|
    requires forall i :: 0 <= i < n ==> IsJsWhitespace(s[i])
    ensures Blank(s[..n])
  {
    forall i | 0 <= i < n ensures IsJsWhitespace(s[..n][i]) {
      assert s[..n][i] == s[i];
    }
  }

  /** A suffix of `s` whose characters are all whitespace is `Blank`. */
  lemma BlankSuffix(s: string, n: int)
    requires 0 <= n <= |s|
    requires forall i :: n <= i < |s| ==> IsJsWhitespace(s[i])
    ensures Blank(s[n..])
  {
    forall i | 0 <= i < |s| - n ensures IsJsWhitespace(s[n..][i]) {
      assert s[n..][i] == s[n + i];
    }
  }

  /** Cutting whitespace off the front of `s` and then off the back leaves a trimmed slice. */
  lemma TrimmedSliceOf(s: string, t: string, r: string)
    requires |t| <= |s| && t == s[|s| - |t|..] && Blank(s[..|s| - |t|])
    requires |r| <= |t| && r == t[..|r|] && Blank(t[|r|..])
    ensures IsTrimmedSlice(s, r, |s| - |t|, |s| - |t| + |r|)
  {
    var a, b := |s| - |t|, |s| - |t| + |r|;
    assert r == s[a..b];
    assert s[b..] == t[|r|..];
  }

  /**
   * `s.trim()`: the slice of `s` left once the leading and trailing whitespace is dropped; it
   * neither starts nor ends with whitespace.
   */
  function Trim(s: string): (r: string)
    ensures exists a, b :: IsTrimmedSlice(s, r, a, b)
    ensures r != [] ==> !IsJsWhitespace(r[0]) && !IsJsWhitespace(r[|r| - 1])
  {
    var t := TrimStart(s);
    var r := TrimEnd(t);
    BlankPrefix(s, |s| - |t|);
    BlankSuffix(t, |r|);
    TrimmedSliceOf(s, t, r);
    assert r != [] ==> r[0] == t[0];
    r
  }

  /** A name trims to nothing exactly when every character of it is whitespace. */
  lemma TrimEmptyIffBlank(s: string)
    ensures Trim(s) == [] <==> forall i :: 0 <= i < |s| ==> IsJsWhitespace(s[i])
  {
    var a := TrimStart(s);
    if Trim(s) == [] {
      // a non-empty `a` would start with a character TrimEnd keeps
      assert a == [];
    } else if forall i :: 0 <= i < |s| ==> IsJsWhitespace(s[i]) {
      if a != [] {
        assert a[0] == s[|s| - |a|];
      }
    }
  }

  // ---------------------------------------------------------------------------------------------
  // Access and candidates
  // ---------------------------------------------------------------------------------------------

  /** Whether the page is shown; `!user || user.role !== 'MASTER_ADMIN'` denies access. */
  predicate MayManageGroups(viewer: Option<User>): (b: bool)
    ensures !b <==> viewer.None? || viewer.value.role != MasterAdmin
  {
    viewer.Some? && viewer.value.role == MasterAdmin
  }

  /** Of the demo users, only the first (u1, the master admin) may manage groups. */
  lemma DemoUsersWhoManageGroups()
    ensures forall i :: 0 <= i < |DataStore.InitialUsers()| ==>
      (MayManageGroups(Some(DataStore.InitialUsers()[i])) <==> i == 0)
  {
  }

  function IsStaff(): User -> bool {
    (u: User) => u.role != EndUser
  }

  /** `users.filter(u => u.role !== 'USER')`: the users offered as members, in list order. */
  function MemberCandidates(users: seq<User>): (r: seq<User>)
    ensures forall i :: 0 <= i < |r| ==> r[i].role != EndUser
    ensures forall u :: u in r <==> u in users && u.role != EndUser
    ensures forall u :: multiset(r)[u] == if u.role != EndUser then multiset(users)[u] else 0
    ensures IsSubsequence(r, users)
  {
    var r := Filter(users, IsStaff());
    FilterCount(users, IsStaff());
    FilterIsSubsequence(users, IsStaff());
    assert forall u :: u in r <==> multiset(r)[u] > 0;
    assert forall u :: u in users <==> multiset(users)[u] > 0;
    r
  }

  datatype View = AccessDenied | Manage(candidates: seq<User>)

  /** What the page shows: the access-denied view, or the management view with its candidates. */
  function PageView(viewer: Option<User>, users: seq<User>): (v: View)
    ensures v.AccessDenied? <==> viewer.None? || viewer.value.role != MasterAdmin
    ensures v.Manage? ==> v.candidates == MemberCandidates(users)
  {
    if !MayManageGroups(viewer) then AccessDenied else Manage(MemberCandidates(users))
  }

  // ---------------------------------------------------------------------------------------------
  // Member selection
  // ---------------------------------------------------------------------------------------------

  function IsNot(id: string): string -> bool {
    (x: string) => x != id
  }

  function Without(ids: seq<string>, id: string): seq<string> {
    Filter(ids, IsNot(id))
  }

  /**
   * `prev.includes(id) ? prev.filter(x => x !== id) : [...prev, id]`: afterwards the id is
   * selected exactly when it was not before, and every other id is selected as before.
   */
  function Toggle(selected: seq<string>, id: string): (r: seq<string>)
    ensures id in r <==> id !in selected
    ensures forall x :: x != id ==> (x in r <==> x in selected)
  {
    if id in selected then
      var r := Without(selected, id);
      FilterCount(selected, IsNot(id));
      assert forall x :: x in r <==> multiset(r)[x] > 0;
      assert forall x :: x in selected <==> multiset(selected)[x] > 0;
      r
    else selected + [id]
  }

  predicate NoDuplicates(ids: seq<string>) {
    forall i, j :: 0 <= i < j < |ids| ==> ids[i] != ids[j]
  }

  /** Toggling an id that is not selected appends it at the end. */
  lemma ToggleAbsentAppends(selected: seq<string>, id: string)
    requires id !in selected
    ensures Toggle(selected, id) == selected + [id]
  {
  }

  /** Toggling a selected id removes every occurrence and keeps the other ids, in order. */
  lemma TogglePresentRemoves(selected: seq<string>, id: string)
    requires id in selected
    ensures id !in Toggle(selected, id)
    ensures forall x :: x != id ==> multiset(Toggle(selected, id))[x] == multiset(selected)[x]
    ensures IsSubsequence(Toggle(selected, id), selected)
    ensures |Toggle(selected, id)| < |selected|
  {
    var r := Toggle(selected, id);
    FilterCount(selected, IsNot(id));
    FilterIsSubsequence(selected, IsNot(id));
    assert multiset(r)[id] == 0;
    var x := multiset(selected)[id := 0];
    assert multiset(r) == x;
    assert multiset(selected)[id] > 0;
    assert |multiset(r)| < |multiset(selected)| by {
      assert multiset(selected) == multiset(r) + multiset{id}[id := multiset(selected)[id]];
    }
  }

  /** Removing an id that is not there changes nothing. */
  lemma WithoutAbsent(ids: seq<string>, id: string)
    requires id !in ids
    ensures Without(ids, id) == ids
  {
    FilterAll(ids, IsNot(id));
  }

  /** Toggling an absent id twice gives back the original selection. */
  lemma ToggleTwiceRestores(selected: seq<string>, id: string)
    requires id !in selected
    ensures Toggle(Toggle(selected, id), id) == selected
  {
    var p := IsNot(id);
    FilterAppend(selected, [id], p);
    WithoutAbsent(selected, id);
    FilterCons(id, [], p);
  }

  /** Toggling keeps a selection free of duplicates. */
  lemma ToggleKeepsNoDuplicates(selected: seq<string>, id: string)
    requires NoDuplicates(selected)
    ensures NoDuplicates(Toggle(selected, id))
  {
    if id in selected {
      FilterIsSubsequence(selected, IsNot(id));
      NoDuplicatesSubsequence(Without(selected, id), selected);
    }
  }

  /** A subsequence of a duplicate-free sequence is duplicate-free. */
  lemma {:induction false} NoDuplicatesSubsequence(a: seq<string>, b: seq<string>)
    requires IsSubsequence(a, b) && NoDuplicates(b)
    ensures NoDuplicates(a)
    decreases |b|
  {
    if a != [] {
      assert b != [];
      if a[0] == b[0] && IsSubsequence(a[1..], b[1..]) {
        NoDuplicatesSubsequence(a[1..], b[1..]);
        SubsequenceMembers(a[1..], b[1..]);
        forall j | 0 < j < |a| ensures a[0] != a[j] {
          assert a[j] == a[1..][j - 1];
          assert a[j] in b[1..];
        }
        forall i, j | 0 < i < j < |a| ensures a[i] != a[j] {
          assert a[i] == a[1..][i - 1] && a[j] == a[1..][j - 1];
        }
      } else {
        NoDuplicatesSubsequence(a, b[1..]);
      }
    }
  }

  /** Every element of a subsequence is an element of the sequence. */
  lemma {:induction false} SubsequenceMembers(a: seq<string>, b: seq<string>)
    requires IsSubsequence(a, b)
    ensures forall x :: x in a ==> x in b
    decreases |b|
  {
    if a != [] {
      if a[0] == b[0] && IsSubsequence(a[1..], b[1..]) {
        SubsequenceMembers(a[1..], b[1..]);
        assert forall x :: x in a ==> x == a[0] || x in a[1..];
      } else {
        SubsequenceMembers(a, b[1..]);
      }
    }
  }

  // ---------------------------------------------------------------------------------------------
  // The page's form state
  // ---------------------------------------------------------------------------------------------

  class Page {
    var isModalOpen: bool
    var newGroupName: string
    var selectedMemberIds: seq<string>
    /** The entity store the page creates groups in. */
    const store: DataStore.Store

    constructor (store: DataStore.Store)
      ensures this.store == store
      ensures !isModalOpen && newGroupName == "" && selectedMemberIds == []
    {
      this.store := store;
      isModalOpen, newGroupName, selectedMemberIds := false, "", [];
    }

    /** The "Create Group" button. */
    method OpenModal()
      modifies this
      ensures isModalOpen
      ensures newGroupName == old(newGroupName) && selectedMemberIds == old(selectedMemberIds)
    {
      isModalOpen := true;
    }

    /** The close button, the backdrop and "Cancel": the name and selection are kept. */
    method CloseModal()
      modifies this
      ensures !isModalOpen
      ensures newGroupName == old(newGroupName) && selectedMemberIds == old(selectedMemberIds)
    {
      isModalOpen := false;
    }

    /** The name field's `onChange`. */
    method EditGroupName(value: string)
      modifies this
      ensures newGroupName == value
      ensures isModalOpen == old(isModalOpen) && selectedMemberIds == old(selectedMemberIds)
    {
      newGroupName := value;
    }

    /** `toggleMemberSelection` */
    method ToggleMemberSelection(userId: string)
      modifies this
      ensures selectedMemberIds == Toggle(old(selectedMemberIds), userId)
      ensures isModalOpen == old(isModalOpen) && newGroupName == old(newGroupName)
    {
      selectedMemberIds := Toggle(selectedMemberIds, userId);
    }

    /**
     * `handleCreateGroup`: a blank name does nothing; otherwise the group is created with the
     * untrimmed name and the current selection, the modal closes and the form is cleared.
     */
    method HandleCreateGroup(id: string, now: Timestamp)
      requires store.Valid()
      modifies this, store
      ensures store.Valid()
      ensures Trim(old(newGroupName)) == [] ==>
        && isModalOpen == old(isModalOpen) && newGroupName == old(newGroupName)
        && selectedMemberIds == old(selectedMemberIds)
        && store.State() == old(store.State()) && store.notifications == old(store.notifications)
      ensures Trim(old(newGroupName)) != [] ==>
        && store.groups == old(store.groups) + [DataStore.NewGroup(old(newGroupName), old(selectedMemberIds), id, now)]
        && store.tickets == old(store.tickets) && store.comments == old(store.comments)
        && store.users == old(store.users)
        && store.storage == old(store.storage)[Storage.GroupsKey := Storage.GroupList(store.groups)]
        && store.notifications == old(store.notifications)
        && !isModalOpen && newGroupName == "" && selectedMemberIds == []
    {
      if Trim(newGroupName) == [] {
        return;
      }
      store.CreateGroup(newGroupName, selectedMemberIds, id, now);
      isModalOpen := false;
      newGroupName := "";
      selectedMemberIds := [];
    }
  }
}
