/** The user lookup: a fixed table of users searched by id. */
module UserServices {
  import opened Nullables
  import opened DataResponses

  datatype User = User(id: string, name: string, age: int)

  const NotFoundMessage: string := "未获取到指定用户"

  /** The six users the service is created with, in list order. */
  const UserTable: seq<User> := [
    User("1", "zzs001", 18),
    User("2", "zzs002", 18),
    User("3", "zzs003", 18),
    User("4", "zzf001", 18),
    User("5", "zzf002", 18),
    User("6", "zzf003", 18)
  ]

  /** The first user in `users`, in list order, whose id is `id`; null when there is none. */
  function FindById(users: seq<User>, id: string): (r: Nullable<User>)
    ensures r.NonNull? <==> exists i :: 0 <= i < |users| && users[i].id == id
    ensures r.NonNull? ==> r.value.id == id
    ensures r.NonNull? ==> exists i :: 0 <= i < |users| && users[i] == r.value
                                    && forall j :: 0 <= j < i ==> users[j].id != id
  {
    if users == [] then Null
    else if users[0].id == id then NonNull(users[0])
    else
      var r := FindById(users[1..], id);
      assert forall i :: 1 <= i < |users| ==> users[i] == users[1..][i - 1];
      r
  }

  ghost predicate IdsDistinct(users: seq<User>)
  {
    forall i, j :: 0 <= i < j < |users| ==> users[i].id != users[j].id
  }

  /** When no two users share an id, looking up a user's id finds that very user:
      the first match that `FindById` promises can only be `u` itself. */
  lemma FindByIdUnique(users: seq<User>, u: User)
    requires IdsDistinct(users)
    requires u in users
    ensures FindById(users, u.id) == NonNull(u)
  {
  }

  /** The ids "1" to "6" of the table are pairwise distinct. */
  lemma UserTableIdsDistinct()
    ensures IdsDistinct(UserTable)
  {
  }

  /** Every user of the table is found by its own id. */
  lemma UserTableLookup(u: User)
    requires u in UserTable
    ensures FindById(UserTable, u.id) == NonNull(u)
  {
    UserTableIdsDistinct();
    FindByIdUnique(UserTable, u);
  }

  class UserService {
    const users: seq<User>

    constructor ()
      ensures users == UserTable
    {
      users := UserTable;
    }

    /** Scans `users` in order and answers with the first user whose id matches,
        or with the failure response when none does. */
    method GetUserById(userId: string) returns (r: DataResponse<User>)
      ensures fresh(r) && fresh(r.base)
      ensures r.data == FindById(users, userId)
      ensures r.base.success <==> exists i :: 0 <= i < |users| && users[i].id == userId
      ensures r.base.success ==> r.data.NonNull? && r.data.value.id == userId
      ensures r.base.success ==> r.base.code == NonNull(SuccessCode) && r.base.message == NonNull(SuccessMessage)
      ensures !r.base.success ==> r.data == Null && r.base.code == NonNull(FailureCode)
                                  && r.base.message == NonNull(NotFoundMessage)
    {
      var i := 0;
      while i < |users|
        invariant 0 <= i <= |users|
        invariant forall j :: 0 <= j < i ==> users[j].id != userId
        invariant FindById(users[i..], userId) == FindById(users, userId)
      {
        var user := users[i];
        if user.id == userId {
          r := DataResponse<User>.BuildSuccess(NonNull(user));
          return;
        }
        assert users[i..][1..] == users[i + 1..];
        i := i + 1;
      }
      r := DataResponse<User>.BuildFailure(NonNull(NotFoundMessage));
    }
  }

  /** With the service's own table, id "1" yields the first user. */
  lemma LookupUserOne()
    ensures FindById(UserTable, "1") == NonNull(User("1", "zzs001", 18))
  {
    UserTableLookup(UserTable[0]);
  }
}
