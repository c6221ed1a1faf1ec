/** The staff directory (components/UserManagement.tsx): a list of users,
    initially the sample users, whose `active` flags can be toggled. */
module UserManagement {
  import opened Types
  import Constants

  /** `prev.map(u => u.id === id ? { ...u, active: !u.active } : u)`. */
  function Toggled(users: seq<User>, id: string): (r: seq<User>)
    ensures |r| == |users|
    ensures forall k :: 0 <= k < |users| && users[k].id == id ==> r[k] == users[k].(active := !users[k].active)
    ensures forall k :: 0 <= k < |users| && users[k].id != id ==> r[k] == users[k]
  {
    if users == [] then []
    else
      var head := if users[0].id == id then users[0].(active := !users[0].active) else users[0];
      [head] + Toggled(users[1..], id)
  }

  /** Toggling the same id twice gives back the original directory. */
  lemma {:induction false} ToggleTwice(users: seq<User>, id: string)
    ensures Toggled(Toggled(users, id), id) == users
  {
    var once := Toggled(users, id);
    var twice := Toggled(once, id);
    assert forall k :: 0 <= k < |users| ==> once[k].id == users[k].id;
    assert forall k :: 0 <= k < |users| ==> twice[k] == users[k];
  }

  /** Toggling an id that nobody has changes nothing. */
  lemma ToggleAbsent(users: seq<User>, id: string)
    requires forall k :: 0 <= k < |users| ==> users[k].id != id
    ensures Toggled(users, id) == users
  {
  }

  /** Only `active` changes: every user keeps its id, name and role, in the same order. */
  lemma ToggleKeepsIdentity(users: seq<User>, id: string)
    ensures forall k :: 0 <= k < |users| ==>
      Toggled(users, id)[k].(active := users[k].active) == users[k]
  {
  }

  /** Toggling different ids commutes. */
  lemma ToggleCommutes(users: seq<User>, a: string, b: string)
    ensures Toggled(Toggled(users, a), b) == Toggled(Toggled(users, b), a)
  {
    var ab := Toggled(Toggled(users, a), b);
    var ba := Toggled(Toggled(users, b), a);
    assert forall k :: 0 <= k < |users| ==> ab[k] == ba[k];
  }

  /** The initial directory: Admin, Teacher and Guidance, all active. */
  lemma InitialDirectory()
    ensures |Constants.MockUsers| == 3
    ensures Constants.MockUsers[0].role == Admin
    ensures Constants.MockUsers[1].role == Teacher
    ensures Constants.MockUsers[2].role == Guidance
    ensures forall k :: 0 <= k < |Constants.MockUsers| ==> Constants.MockUsers[k].active
  {
  }

  /** The component's state. */
  class UserManagement {
    var users: seq<User>

    constructor ()
      ensures users == Constants.MockUsers
    {
      users := Constants.MockUsers;
    }

    /** `toggleStatus(id)`. */
    method ToggleStatus(id: string)
      modifies this
      ensures users == Toggled(old(users), id)
    {
      users := Toggled(users, id);
    }
  }
}
