/** The users page: an in-memory user list with generated ids (no server behind it). */
module Users {
  import opened Common
  import opened Seqs

  datatype User = User(id: int, name: string, email: string, role: string, status: string)

  /** The modal's fields; `id` is supplied on submit. */
  datatype UserForm = UserForm(name: string, email: string, role: string, status: string)

  /** The four inputs of the modal, each bound to one form field. */
  datatype UserField = Name | Email | Role | Status

  const InitialUsers: seq<User> := [
    User(1, "Admin Utama", "admin@example.com", "Admin", "Active"),
    User(2, "John Doe", "john@gmail.com", "Customer", "Active"),
    User(3, "Siti Gudang", "staff@example.com", "Staff", "Inactive")
  ]

  const InitialForm := UserForm("", "", "Customer", "Active")

  function IdOf(u: User): int { u.id }

  /** `{ ...formData, id }`. */
  function WithId(f: UserForm, id: int): (u: User)
    ensures u.id == id && FormOf(u) == f
  {
    User(id, f.name, f.email, f.role, f.status)
  }

  /** The form `handleOpenEdit` loads from a user (the extra `id` is overwritten on submit). */
  function FormOf(u: User): UserForm {
    UserForm(u.name, u.email, u.role, u.status)
  }

  /** `setFormData({ ...formData, <field>: value })`. */
  function SetField(f: UserForm, field: UserField, value: string): (r: UserForm)
    ensures field == Name ==> r == f.(name := value)
    ensures field == Email ==> r == f.(email := value)
    ensures field == Role ==> r == f.(role := value)
    ensures field == Status ==> r == f.(status := value)
  {
    match field
    case Name => f.(name := value)
    case Email => f.(email := value)
    case Role => f.(role := value)
    case Status => f.(status := value)
  }

  /** `users.filter((u) => u.id !== id)`. */
  function WithoutId(users: seq<User>, id: int): (r: seq<User>)
    ensures forall u :: u in r <==> u in users && u.id != id
    ensures Subseq(r, users)
  {
    Filter((u: User) => u.id != id, users)
  }

  /** `users.length ? users[users.length - 1].id + 1 : 1`. */
  function NextId(users: seq<User>): (id: int)
    ensures users == [] ==> id == 1
    ensures users != [] ==> id == users[|users| - 1].id + 1
    ensures Increasing(users, IdOf) ==> forall u :: u in users ==> u.id < id
  {
    if |users| > 0 then users[|users| - 1].id + 1 else 1
  }

  /** The create branch of `handleSubmit`: append the form under a fresh id. */
  function Created(users: seq<User>, f: UserForm): (r: seq<User>)
    ensures |r| == |users| + 1 && r[..|users|] == users
    ensures r[|users|] == WithId(f, NextId(users))
  {
    users + [WithId(f, NextId(users))]
  }

  /** The edit branch of `handleSubmit`: every user with `currentId` becomes the form under that id. */
  function Edited(users: seq<User>, currentId: int, f: UserForm): (r: seq<User>)
    ensures |r| == |users|
    ensures forall i :: 0 <= i < |users| ==> r[i].id == users[i].id
    ensures forall i :: 0 <= i < |users| && users[i].id == currentId ==> r[i] == WithId(f, currentId)
    ensures forall i :: 0 <= i < |users| && users[i].id != currentId ==> r[i] == users[i]
  {
    seq(|users|, i requires 0 <= i < |users| =>
      if users[i].id == currentId then WithId(f, currentId) else users[i])
  }

  lemma InitialUsersIncreasing()
    ensures Increasing(InitialUsers, IdOf)
  {
  }

  /** Strictly increasing ids are unique ids. */
  lemma IncreasingIdsUnique(users: seq<User>)
    requires Increasing(users, IdOf)
    ensures forall i, j :: 0 <= i < |users| && 0 <= j < |users| && i != j ==> users[i].id != users[j].id
  {
    forall i, j | 0 <= i < |users| && 0 <= j < |users| && i != j
      ensures users[i].id != users[j].id
    {
      if i < j {
        assert IdOf(users[i]) < IdOf(users[j]);
      } else {
        assert IdOf(users[j]) < IdOf(users[i]);
      }
    }
  }

  lemma DeleteKeepsIncreasing(users: seq<User>, id: int)
    requires Increasing(users, IdOf)
    ensures Increasing(WithoutId(users, id), IdOf)
  {
    SubseqKeepsIncreasing(WithoutId(users, id), users, IdOf);
  }

  lemma CreateKeepsIncreasing(users: seq<User>, f: UserForm)
    requires Increasing(users, IdOf)
    ensures Increasing(Created(users, f), IdOf)
  {
    var r := Created(users, f);
    forall i, j | 0 <= i < j < |r| ensures IdOf(r[i]) < IdOf(r[j]) {
      if j < |users| {
        assert r[i] == users[i] && r[j] == users[j];
      } else {
        assert r[i] == users[i] && r[i] in users;
      }
    }
  }

  lemma EditKeepsIncreasing(users: seq<User>, currentId: int, f: UserForm)
    requires Increasing(users, IdOf)
    ensures Increasing(Edited(users, currentId, f), IdOf)
  {
    var r := Edited(users, currentId, f);
    forall i, j | 0 <= i < j < |r| ensures IdOf(r[i]) < IdOf(r[j]) {
      assert IdOf(users[i]) < IdOf(users[j]);
    }
  }

  /** With unique ids, an edit touches exactly one user when `currentId` is present. */
  lemma EditTouchesOne(users: seq<User>, k: nat, f: UserForm)
    requires Increasing(users, IdOf) && k < |users|
    ensures Edited(users, users[k].id, f)[k] == WithId(f, users[k].id)
    ensures forall i :: 0 <= i < |users| && i != k ==> Edited(users, users[k].id, f)[i] == users[i]
  {
    IncreasingIdsUnique(users);
  }

  class UsersPage {
    var users: seq<User>
    var isModalOpen: bool
    var isEditing: bool
    var currentId: Option<int>
    var form: UserForm

    /** Ids strictly increase along the list, and editing always has a current id. */
    ghost predicate Valid()
      reads this
    {
      Increasing(users, IdOf) && (isEditing ==> currentId.Some?)
    }

    constructor ()
      ensures Valid()
      ensures users == InitialUsers && !isModalOpen && !isEditing && currentId == None && form == InitialForm
    {
      users := InitialUsers;
      isModalOpen, isEditing := false, false;
      currentId := None;
      form := InitialForm;
      InitialUsersIncreasing();
    }

    /** `handleOpenAdd`. */
    method OpenAdd()
      requires Valid()
      modifies this`isEditing, this`form, this`isModalOpen
      ensures Valid()
      ensures !isEditing && form == InitialForm && isModalOpen
    {
      isEditing := false;
      form := InitialForm;
      isModalOpen := true;
    }

    /** `handleOpenEdit`. */
    method OpenEdit(u: User)
      requires Valid()
      modifies this`isEditing, this`currentId, this`form, this`isModalOpen
      ensures Valid()
      ensures isEditing && currentId == Some(u.id) && form == FormOf(u) && isModalOpen
    {
      isEditing := true;
      currentId := Some(u.id);
      form := FormOf(u);
      isModalOpen := true;
    }

    /** One of the modal's inputs changes. */
    method ChangeField(field: UserField, value: string)
      requires Valid()
      modifies this`form
      ensures Valid()
      ensures form == SetField(old(form), field, value)
    {
      form := SetField(form, field, value);
    }

    /** The modal's cancel button. */
    method CloseModal()
      requires Valid()
      modifies this`isModalOpen
      ensures Valid() && !isModalOpen
    {
      isModalOpen := false;
    }

    /** `handleDelete`: `confirmed` is the answer to the browser's confirm dialog. */
    method Delete(id: int, confirmed: bool)
      requires Valid()
      modifies this`users
      ensures Valid()
      ensures users == if confirmed then WithoutId(old(users), id) else old(users)
    {
      if confirmed {
        DeleteKeepsIncreasing(users, id);
        users := WithoutId(users, id);
      }
    }

    /** `handleSubmit`: edit the current user or append a new one, then close the modal. */
    method Submit()
      requires Valid()
      modifies this`users, this`isModalOpen
      ensures Valid() && !isModalOpen
      ensures isEditing ==> users == Edited(old(users), currentId.value, form)
      ensures !isEditing ==> users == Created(old(users), form)
    {
      if isEditing {
        EditKeepsIncreasing(users, currentId.value, form);
        users := Edited(users, currentId.value, form);
      } else {
        CreateKeepsIncreasing(users, form);
        users := Created(users, form);
      }
      isModalOpen := false;
    }
  }
}
