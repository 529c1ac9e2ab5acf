/**
 * The Users page: the user table with its text search, the "Add User" form
 * (validation, id generation, initials), editing and deleting the selected
 * user, and the department check-boxes of both forms.
 */
module Users {
  import opened Wrappers
  import opened Text
  import opened Lists

  // ---------------------------------------------------------------------------
  // Records
  // ---------------------------------------------------------------------------

  datatype User = User(
    id: int,
    name: string,
    email: string,
    role: string,
    status: string,
    departments: seq<string>,
    avatar: string,
    initials: string,
    lastActive: string)

  /** The "Add User" form. */
  datatype UserForm = UserForm(
    name: string,
    email: string,
    role: string,
    status: string,
    departments: seq<string>)

  /** Which notification the add handler raises. */
  datatype AddOutcome = Added(id: int) | MissingInformation

  const InitialUsers: seq<User> := [
    User(1, "John Doe", "john@example.com", "Admin", "Active", ["Finance", "Tax"],
         "/placeholder.svg", "JD", "5 min ago"),
    User(2, "Jane Smith", "jane@example.com", "Operator", "Active", ["Payroll"],
         "/placeholder.svg", "JS", "2 hours ago"),
    User(3, "Alex Johnson", "alex@example.com", "Guest", "Inactive", ["Accounting"],
         "/placeholder.svg", "AJ", "3 days ago"),
    User(4, "Sarah Williams", "sarah@example.com", "Operator", "Active",
         ["Digital Certificate", "Finance"], "/placeholder.svg", "SW", "1 hour ago"),
    User(5, "Michael Brown", "michael@example.com", "Admin", "Active", ["Tax", "Accounting"],
         "/placeholder.svg", "MB", "Just now")
  ]


  /** The form as it is first shown and after every successful add. */
  const EmptyUserForm := UserForm("", "", "", "Active", [])

  /** No two users share an id. */
  predicate UniqueIds(users: seq<User>) {
    forall i, j :: 0 <= i < j < |users| ==> users[i].id != users[j].id
  }

  // ---------------------------------------------------------------------------
  // Search
  // ---------------------------------------------------------------------------

  /** `query` (already lower-cased) occurs in name, email, role or some department. */
  predicate MatchesQuery(u: User, query: string) {
    Includes(ToLower(u.name), query)
    || Includes(ToLower(u.email), query)
    || Includes(ToLower(u.role), query)
    || exists k :: 0 <= k < |u.departments| && Includes(ToLower(u.departments[k]), query)
  }

  function Matching(searchQuery: string): User -> bool {
    u => MatchesQuery(u, ToLower(searchQuery))
  }

  /** The rows of the user table for the current search text. */
  function FilteredUsers(users: seq<User>, searchQuery: string): seq<User> {
    Filter(users, Matching(searchQuery))
  }

  /**
   * A user is listed exactly when the search matches one of its fields; order
   * is kept; an empty search lists everyone, because every string includes "".
   */
  lemma FilteredUsersSpec(users: seq<User>, searchQuery: string)
    ensures forall u :: u in FilteredUsers(users, searchQuery) <==>
      u in users && MatchesQuery(u, ToLower(searchQuery))
    ensures IsSubsequence(FilteredUsers(users, searchQuery), users)
    ensures searchQuery == "" ==> FilteredUsers(users, searchQuery) == users
  {
    FilterIsSubsequence(users, Matching(searchQuery));
    if searchQuery == "" {
      assert ToLower(searchQuery) == "";
      FilterKeepsAll(users, Matching(searchQuery));
    }
  }

  // ---------------------------------------------------------------------------
  // Adding a user
  // ---------------------------------------------------------------------------

  /** The required fields: name, email, role and at least one department. */
  predicate MissingFields(form: UserForm) {
    form.name == "" || form.email == "" || form.role == "" || |form.departments| == 0
  }

  /** `Math.max(...users.map(u => u.id))` */
  function MaxId(users: seq<User>): (m: int)
    requires users != []
    ensures forall i :: 0 <= i < |users| ==> users[i].id <= m
    ensures exists i :: 0 <= i < |users| && users[i].id == m
    decreases |users|
  {
    if |users| == 1 then users[0].id
    else
      var rest := MaxId(users[1..]);
      assert forall i :: 1 <= i < |users| ==> users[i] == users[1..][i - 1];
      if users[0].id >= rest then users[0].id else rest
  }

  /** The id of a new user: one more than the largest id, or 1 for an empty list. */
  function NextId(users: seq<User>): (id: int)
    ensures forall i :: 0 <= i < |users| ==> users[i].id < id
    ensures users == [] ==> id == 1
    ensures users != [] ==> exists i :: 0 <= i < |users| && users[i].id == id - 1
  {
    if |users| > 0 then MaxId(users) + 1 else 1
  }

  /** `words.map(n => n[0]).join('')`: an empty word gives undefined, which joins as "". */
  function FirstChars(words: seq<string>): string
    decreases |words|
  {
    if words == [] then ""
    else (if words[0] == "" then "" else [words[0][0]]) + FirstChars(words[1..])
  }

  /** `name.split(' ').map(n => n[0]).join('').toUpperCase()` */
  function Initials(name: string): string {
    ToUpper(FirstChars(Split(name, ' ')))
  }

  /**
   * Reference definition: the characters that begin a word, i.e. every
   * non-space character at the start or right after a space.
   */
  function WordStarts(s: string, afterSpace: bool): string
    decreases |s|
  {
    if s == [] then ""
    else (if afterSpace && s[0] != ' ' then [s[0]] else "") + WordStarts(s[1..], s[0] == ' ')
  }

  lemma {:induction false} FirstCharsOfSplit(s: string)
    ensures FirstChars(Split(s, ' ')) == WordStarts(s, true)
    ensures FirstChars(Split(s, ' ')[1..]) == WordStarts(s, false)
    decreases |s|
  {
    if s != [] {
      FirstCharsOfSplit(s[1..]);
      var rest := Split(s[1..], ' ');
      if s[0] == ' ' {
        assert Split(s, ' ') == [""] + rest;
        assert ([""] + rest)[1..] == rest;
      } else {
        var parts := [[s[0]] + rest[0]] + rest[1..];
        assert Split(s, ' ') == parts;
        assert parts[1..] == rest[1..];
        assert FirstChars(parts) == [s[0]] + FirstChars(rest[1..]);
      }
    }
  }

  /** Initials are the upper-cased first characters of the space-separated words. */
  lemma InitialsAreWordStarts(name: string)
    ensures Initials(name) == ToUpper(WordStarts(name, true))
  {
    FirstCharsOfSplit(name);
  }

  /** The record the add handler appends for a validated form. */
  function NewUser(form: UserForm, id: int): User {
    User(id, form.name, form.email, form.role, form.status, form.departments,
         "/placeholder.svg", Initials(form.name), "Just now")
  }

  /** Appending a user numbered by NextId keeps ids unique. */
  lemma AppendNextIdKeepsUniqueIds(users: seq<User>, u: User)
    requires UniqueIds(users)
    requires u.id == NextId(users)
    ensures UniqueIds(users + [u])
  {
  }

  // ---------------------------------------------------------------------------
  // Updating and deleting
  // ---------------------------------------------------------------------------

  /** `users.map(user => user.id === updated.id ? {...updated} : user)` */
  function ReplaceById(users: seq<User>, updated: User): seq<User> {
    seq(|users|, i requires 0 <= i < |users| => if users[i].id == updated.id then updated else users[i])
  }

  /**
   * Update keeps the length and every id; with unique ids and the id present
   * it is a point update at that index; with the id absent it changes nothing.
   */
  lemma ReplaceByIdSpec(users: seq<User>, updated: User)
    ensures |ReplaceById(users, updated)| == |users|
    ensures forall i :: 0 <= i < |users| ==> ReplaceById(users, updated)[i].id == users[i].id
    ensures UniqueIds(users) ==> UniqueIds(ReplaceById(users, updated))
    ensures UniqueIds(users) ==> forall i :: 0 <= i < |users| && users[i].id == updated.id ==>
      ReplaceById(users, updated) == users[i := updated]
    ensures (forall i :: 0 <= i < |users| ==> users[i].id != updated.id) ==>
      ReplaceById(users, updated) == users
  {
  }

  function WithoutId(id: int): User -> bool {
    (u: User) => u.id != id
  }

  /** `users.filter(user => user.id !== id)` */
  function RemoveById(users: seq<User>, id: int): seq<User> {
    Filter(users, WithoutId(id))
  }

  /**
   * Delete removes exactly the users with that id and keeps the others in
   * order; with unique ids it removes one user when the id is present.
   */
  lemma {:induction false} RemoveByIdSpec(users: seq<User>, id: int)
    ensures forall u :: u in RemoveById(users, id) <==> u in users && u.id != id
    ensures IsSubsequence(RemoveById(users, id), users)
    ensures UniqueIds(users) ==> UniqueIds(RemoveById(users, id))
    ensures UniqueIds(users) && (exists i :: 0 <= i < |users| && users[i].id == id) ==>
      |RemoveById(users, id)| == |users| - 1
    decreases |users|
  {
    FilterIsSubsequence(users, WithoutId(id));
    if users != [] && UniqueIds(users) {
      var rest := users[1..];
      assert UniqueIds(rest) by {
        forall i, j | 0 <= i < j < |rest| ensures rest[i].id != rest[j].id {
          assert rest[i] == users[i + 1] && rest[j] == users[j + 1];
        }
      }
      RemoveByIdSpec(rest, id);
      var r := RemoveById(users, id);
      assert forall k :: 0 <= k < |rest| ==> rest[k].id != users[0].id by {
        forall k | 0 <= k < |rest| ensures rest[k].id != users[0].id {
          assert rest[k] == users[k + 1];
        }
      }
      if users[0].id == id {
        FilterKeepsAll(rest, WithoutId(id));
        assert r == RemoveById(rest, id);
      } else {
        assert r == [users[0]] + RemoveById(rest, id);
        forall i, j | 0 <= i < j < |r| ensures r[i].id != r[j].id {
          if i == 0 {
            assert r[j] in RemoveById(rest, id);
          } else {
            assert r[i] == RemoveById(rest, id)[i - 1] && r[j] == RemoveById(rest, id)[j - 1];
          }
        }
        if exists i :: 0 <= i < |users| && users[i].id == id {
          var i :| 0 <= i < |users| && users[i].id == id;
          assert rest[i - 1].id == id;
        }
      }
    }
  }

  // ---------------------------------------------------------------------------
  // Department check-boxes
  // ---------------------------------------------------------------------------

  function Other(department: string): string -> bool {
    d => d != department
  }

  /** Tick or untick a department: remove it when present, append it when absent. */
  function Toggle(departments: seq<string>, department: string): seq<string> {
    if department in departments then Filter(departments, Other(department))
    else departments + [department]
  }

  /** Toggling flips the membership of that department and of no other. */
  lemma ToggleSpec(departments: seq<string>, department: string)
    ensures department in Toggle(departments, department) <==> department !in departments
    ensures forall d :: d != department ==>
      (d in Toggle(departments, department) <==> d in departments)
    ensures NoDuplicates(departments) ==> NoDuplicates(Toggle(departments, department))
  {
    if department in departments {
      if NoDuplicates(departments) {
        FilterNoDuplicates(departments, Other(department));
      }
    }
  }

  /** Ticking an unticked department and unticking it again restores the list. */
  lemma ToggleTwiceRestores(departments: seq<string>, department: string)
    requires department !in departments
    ensures Toggle(Toggle(departments, department), department) == departments
  {
    var once := departments + [department];
    assert department in once;
    FilterAppend(departments, [department], Other(department));
    FilterKeepsAll(departments, Other(department));
    assert Filter([department], Other(department)) == [];
  }

  // ---------------------------------------------------------------------------
  // The page state
  // ---------------------------------------------------------------------------

  class UsersPage {
    var users: seq<User>
    var searchQuery: string
    var currentUser: Option<User>
    var newUser: UserForm

    ghost predicate Valid()
      reads this
    {
      UniqueIds(users)
    }

    constructor ()
      ensures Valid()
      ensures users == InitialUsers && searchQuery == ""
      ensures currentUser == None && newUser == EmptyUserForm
    {
      users := InitialUsers;
      searchQuery := "";
      currentUser := None;
      newUser := EmptyUserForm;
    }

    method SetSearchQuery(query: string)
      modifies this`searchQuery
      ensures searchQuery == query
    {
      searchQuery := query;
    }

    /** The name, email and role inputs of the add form. */
    method EditNewUser(name: string, email: string, role: string)
      modifies this`newUser
      ensures newUser == old(newUser).(name := name, email := email, role := role)
    {
      newUser := newUser.(name := name, email := email, role := role);
    }

    /** A department check-box of the add form. */
    method ToggleDepartment(department: string)
      modifies this`newUser
      ensures newUser == old(newUser).(departments := Toggle(old(newUser).departments, department))
    {
      newUser := newUser.(departments := Toggle(newUser.departments, department));
    }

    /** The add handler: validate, number, compute initials, append, reset the form. */
    method AddUser() returns (outcome: AddOutcome)
      requires Valid()
      modifies this`users, this`newUser
      ensures Valid()
      ensures outcome == MissingInformation <==> MissingFields(old(newUser))
      ensures outcome == MissingInformation ==> users == old(users) && newUser == old(newUser)
      ensures outcome.Added? ==>
        && outcome.id == NextId(old(users))
        && users == old(users) + [NewUser(old(newUser), outcome.id)]
        && newUser == EmptyUserForm
    {
      if MissingFields(newUser) {
        return MissingInformation;
      }
      var id := NextId(users);
      var added := NewUser(newUser, id);
      AppendNextIdKeepsUniqueIds(users, added);
      users := users + [added];
      newUser := EmptyUserForm;
      outcome := Added(id);
    }

    /** Opening the edit dialog or the delete confirmation for a row. */
    method SelectUser(user: User)
      modifies this`currentUser
      ensures currentUser == Some(user)
    {
      currentUser := Some(user);
    }

    /** The name, email, role and status inputs of the edit dialog. */
    method EditCurrentUser(name: string, email: string, role: string, status: string)
      requires currentUser.Some?
      modifies this`currentUser
      ensures currentUser ==
        Some(old(currentUser).value.(name := name, email := email, role := role, status := status))
    {
      currentUser := Some(currentUser.value.(name := name, email := email, role := role, status := status));
    }

    /** A department check-box of the edit dialog; nothing happens without a selected user. */
    method ToggleEditDepartment(department: string)
      modifies this`currentUser
      ensures old(currentUser).None? ==> currentUser == None
      ensures old(currentUser).Some? ==>
        currentUser == Some(old(currentUser).value.(departments :=
          Toggle(old(currentUser).value.departments, department)))
    {
      if currentUser.Some? {
        var u := currentUser.value;
        currentUser := Some(u.(departments := Toggle(u.departments, department)));
      }
    }

    /** The save handler of the edit dialog. */
    method UpdateUser()
      requires Valid()
      modifies this`users
      ensures Valid()
      ensures old(currentUser).None? ==> users == old(users)
      ensures old(currentUser).Some? ==> users == ReplaceById(old(users), currentUser.value)
    {
      if currentUser.Some? {
        ReplaceByIdSpec(users, currentUser.value);
        users := ReplaceById(users, currentUser.value);
      }
    }

    /** The confirm handler of the delete dialog. */
    method DeleteUser()
      requires Valid()
      modifies this`users
      ensures Valid()
      ensures old(currentUser).None? ==> users == old(users)
      ensures old(currentUser).Some? ==> users == RemoveById(old(users), currentUser.value.id)
    {
      if currentUser.Some? {
        RemoveByIdSpec(users, currentUser.value.id);
        users := RemoveById(users, currentUser.value.id);
      }
    }
  }
}
