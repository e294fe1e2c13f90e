/** The admin panel's account management. Every save and delete updates
    two lists: the one handed to `onUpdateUsers`, rebuilt with `map` and
    `filter`, and the shared `mockUsers` array, changed in place at the
    first index with the id only. */
module UserManagement {
  import opened Wrappers
  import opened Seqs
  import opened JsString
  import opened AuthContext

  predicate UserMatches(u: User, term: string) {
    var t := ToLower(term);
    Includes(ToLower(u.name), t) || Includes(ToLower(u.email), t) || Includes(ToLower(u.location), t)
  }

  /** `filteredUsers` */
  function UserSearch(users: seq<User>, term: string): seq<User> {
    Filter(users, (u: User) => UserMatches(u, term))
  }

  lemma UserSearchSpec(users: seq<User>, term: string)
    ensures forall u :: u in UserSearch(users, term) <==>
              u in users && (Includes(ToLower(u.name), ToLower(term)) || Includes(ToLower(u.email), ToLower(term))
                             || Includes(ToLower(u.location), ToLower(term)))
    ensures IsSubsequence(UserSearch(users, term), users)
  {
    forall u ensures u in UserSearch(users, term) <==> u in users && UserMatches(u, term) {
      FilterMembership(users, (u: User) => UserMatches(u, term), u);
    }
    FilterIsSubsequence(users, (u: User) => UserMatches(u, term));
  }

  /** The blank account "Add User" opens the dialog with. */
  function NewUserTemplate(id: string, now: string): (u: User)
    ensures u.role == UserRole && u.email == "" && u.name == "" && u.location == "" && u.country == ""
    ensures u.id == id && u.createdAt == now && u.lastLogin == None
  {
    User(id, "", "", "", "", UserRole, now, None)
  }

  predicate UniqueUserIds(users: seq<User>) {
    forall i, j :: 0 <= i < j < |users| ==> users[i].id != users[j].id
  }

  /** `users.map(u => u.id === saved.id ? saved : u)` */
  function ReplaceAllById(users: seq<User>, saved: User): seq<User> {
    seq(|users|, i requires 0 <= i < |users| => if users[i].id == saved.id then saved else users[i])
  }

  /** `users.filter(u => u.id !== id)` */
  function RemoveAllById(users: seq<User>, id: string): seq<User> {
    Filter(users, (u: User) => u.id != id)
  }

  /** `findIndex(u => u.id === id)`: -1 when there is none. */
  function FindIndexById(users: seq<User>, id: string): (k: int)
    ensures -1 <= k < |users|
    ensures k == -1 <==> forall i :: 0 <= i < |users| ==> users[i].id != id
    ensures k >= 0 ==> users[k].id == id && forall i :: 0 <= i < k ==> users[i].id != id
  {
    if users == [] then -1
    else if users[0].id == id then 0
    else
      var k := FindIndexById(users[1..], id);
      if k == -1 then -1 else k + 1
  }

  /** The in-place save: `mockUsers[index] = saved` at the first index. */
  function ReplaceFirstById(accounts: seq<User>, saved: User): seq<User> {
    var k := FindIndexById(accounts, saved.id);
    if k == -1 then accounts else accounts[k := saved]
  }

  /** The in-place delete: `mockUsers.splice(index, 1)` at the first index. */
  function RemoveFirstById(accounts: seq<User>, id: string): seq<User> {
    var k := FindIndexById(accounts, id);
    if k == -1 then accounts else accounts[..k] + accounts[k + 1..]
  }

  /** With distinct ids the first match is the only match, so the list and
      the shared array receive the same save. */
  lemma SaveKeepsInSync(users: seq<User>, saved: User)
    requires UniqueUserIds(users)
    ensures ReplaceAllById(users, saved) == ReplaceFirstById(users, saved)
    ensures UniqueUserIds(ReplaceAllById(users, saved))
  {
    var k := FindIndexById(users, saved.id);
    var r := ReplaceAllById(users, saved);
    if k != -1 {
      forall i | 0 <= i < |users| ensures r[i] == users[k := saved][i] {
        if i != k {
          assert users[i].id != saved.id;
        }
      }
    }
  }

  lemma {:induction false} RemoveAllWithoutMatch(users: seq<User>, id: string)
    requires forall i :: 0 <= i < |users| ==> users[i].id != id
    ensures RemoveAllById(users, id) == users
  {
    FilterAll(users, (u: User) => u.id != id);
  }

  lemma {:induction false} RemoveAllKeepsUniqueIds(users: seq<User>, id: string)
    requires UniqueUserIds(users)
    ensures UniqueUserIds(RemoveAllById(users, id))
  {
    if users != [] {
      RemoveAllKeepsUniqueIds(users[1..], id);
      var p := (u: User) => u.id != id;
      if p(users[0]) {
        var r := RemoveAllById(users, id);
        assert r == [users[0]] + RemoveAllById(users[1..], id);
        forall j | 1 <= j < |r| ensures r[0].id != r[j].id {
          FilterMembership(users[1..], p, r[j]);
        }
      }
    }
  }

  /** With distinct ids the list and the shared array receive the same
      delete. */
  lemma {:induction false} DeleteKeepsInSync(users: seq<User>, id: string)
    requires UniqueUserIds(users)
    ensures RemoveAllById(users, id) == RemoveFirstById(users, id)
    ensures UniqueUserIds(RemoveAllById(users, id))
  {
    RemoveAllKeepsUniqueIds(users, id);
    RemoveAllIsRemoveFirst(users, id);
  }

  lemma {:induction false} RemoveAllIsRemoveFirst(users: seq<User>, id: string)
    requires UniqueUserIds(users)
    ensures RemoveAllById(users, id) == RemoveFirstById(users, id)
  {
    if users != [] {
      var rest := users[1..];
      assert UniqueUserIds(rest) by {
        forall i, j | 0 <= i < j < |rest| ensures rest[i].id != rest[j].id {
          assert rest[i] == users[i + 1] && rest[j] == users[j + 1];
        }
      }
      if users[0].id == id {
        assert RemoveAllById(users, id) == RemoveAllById(rest, id);
        forall i | 0 <= i < |rest| ensures rest[i].id != id {
          assert rest[i] == users[i + 1];
        }
        RemoveAllWithoutMatch(rest, id);
        assert users[..0] + users[1..] == rest;
      } else {
        assert RemoveAllById(users, id) == [users[0]] + RemoveAllById(rest, id);
        RemoveAllIsRemoveFirst(rest, id);
        RemoveFirstPastHead(users, id);
      }
    }
  }

  lemma {:induction false} RemoveFirstPastHead(users: seq<User>, id: string)
    requires users != [] && users[0].id != id
    ensures RemoveFirstById(users, id) == [users[0]] + RemoveFirstById(users[1..], id)
  {
    var k := FindIndexById(users[1..], id);
    assert FindIndexById(users, id) == if k == -1 then -1 else k + 1;
    if k != -1 {
      SpliceOutPastHead(users, k);
    }
  }

  /** Removing the element after position `k` of the tail is removing
      position `k + 1` of the whole list. */
  lemma SpliceOutPastHead(users: seq<User>, k: nat)
    requires k + 1 < |users|
    ensures users[..k + 1] + users[k + 2..] == [users[0]] + (users[1..][..k] + users[1..][k + 1..])
  {
    var rest := users[1..];
    assert users[..k + 1] == [users[0]] + rest[..k];
    assert users[k + 2..] == rest[k + 1..];
  }

  /** Without distinct ids the two copies drift apart: a save replaces both
      duplicates in the list but only the first in the shared array. */
  lemma DuplicateIdsDrift(a: User, b: User, saved: User)
    requires a.id == b.id == saved.id && b != saved
    ensures ReplaceAllById([a, b], saved) == [saved, saved]
    ensures ReplaceFirstById([a, b], saved) == [saved, b]
  {
  }

  /** The account dialog's state; `store` is the shared `mockUsers`. */
  class UserManagementState {
    var editingUser: Option<User>
    var isCreating: bool
    const store: UserStore

    constructor (store: UserStore)
      ensures this.store == store && editingUser == None && !isCreating
    {
      this.store := store;
      editingUser := None;
      isCreating := false;
    }

    /** "Add User" */
    method StartCreate(id: string, now: string)
      modifies this
      ensures editingUser == Some(NewUserTemplate(id, now)) && isCreating
    {
      editingUser := Some(NewUserTemplate(id, now));
      isCreating := true;
    }

    method StartEdit(u: User)
      modifies this
      ensures editingUser == Some(u) && isCreating == old(isCreating)
    {
      editingUser := Some(u);
    }

    /** `handleSaveUser`: returns the list handed to `onUpdateUsers`. */
    method Save(users: seq<User>, saved: User) returns (updated: seq<User>)
      modifies this, store
      ensures old(isCreating) ==> updated == users + [saved] && store.accounts == old(store.accounts) + [saved]
      ensures !old(isCreating) ==>
                updated == ReplaceAllById(users, saved) && store.accounts == ReplaceFirstById(old(store.accounts), saved)
      ensures editingUser == None && !isCreating
    {
      if isCreating {
        updated := users + [saved];
        store.Push(saved);
        isCreating := false;
      } else {
        updated := ReplaceAllById(users, saved);
        var index := FindIndexById(store.accounts, saved.id);
        if index != -1 {
          store.SetAt(index, saved);
        }
      }
      editingUser := None;
    }

    /** `handleDeleteUser`, with the answer to the confirmation dialog. */
    method Delete(users: seq<User>, id: string, confirmed: bool) returns (updated: seq<User>)
      modifies store
      ensures confirmed ==> updated == RemoveAllById(users, id)
                            && store.accounts == RemoveFirstById(old(store.accounts), id)
      ensures !confirmed ==> updated == users && store.accounts == old(store.accounts)
    {
      updated := users;
      if confirmed {
        updated := RemoveAllById(users, id);
        var index := FindIndexById(store.accounts, id);
        if index != -1 {
          store.SpliceOut(index);
        }
      }
    }

    method Cancel()
      modifies this
      ensures editingUser == None && !isCreating
    {
      editingUser := None;
      isCreating := false;
    }
  }

  /** Starting from a list equal to the shared array with distinct ids, a
      save of an existing account keeps the two equal. */
  method SaveEditInSync(panel: UserManagementState, saved: User) returns (updated: seq<User>)
    requires !panel.isCreating && UniqueUserIds(panel.store.accounts)
    modifies panel, panel.store
    ensures updated == panel.store.accounts && UniqueUserIds(updated)
  {
    SaveKeepsInSync(panel.store.accounts, saved);
    updated := panel.Save(panel.store.accounts, saved);
  }

  /** Starting from a list equal to the shared array with distinct ids, a
      confirmed delete keeps the two equal. */
  method DeleteInSync(panel: UserManagementState, id: string) returns (updated: seq<User>)
    requires UniqueUserIds(panel.store.accounts)
    modifies panel.store
    ensures updated == panel.store.accounts && UniqueUserIds(updated)
  {
    DeleteKeepsInSync(panel.store.accounts, id);
    updated := panel.Delete(panel.store.accounts, id, true);
  }
}
