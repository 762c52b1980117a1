/** The React example's users endpoint (`examples/koa-react-ts/src/api/users.ts`):
    an in-memory list of users that `get` returns and `post` appends to, with
    ids allocated one past the largest id so far. A handler's effect on the Koa
    context is its returned `Response`. */
module UsersStore {
  import opened Wrappers
  import opened Js

  datatype User = User(id: int, name: string, email: string)

  /** The three users the module starts with. */
  const InitialUsers: seq<User> := [
    User(1, "Alice", "alice@example.com"),
    User(2, "Bob", "bob@example.com"),
    User(3, "Charlie", "charlie@example.com")
  ]

  /** The value put in `ctx.body`. */
  datatype Body = UserList(users: seq<User>) | OneUser(user: User) | ErrorBody(error: string)

  /** What a handler sets: `ctx.status` (`None` when the handler leaves it to
      Koa) and `ctx.body`. */
  datatype Response = Response(status: Option<int>, body: Body)

  /** No two users share an id. */
  predicate UniqueIds(users: seq<User>) {
    forall i, j :: 0 <= i < j < |users| ==> users[i].id != users[j].id
  }

  /** `Math.max(...users.map(u => u.id), 0)`: the largest id, or 0 when there is
      none larger. */
  function MaxId(users: seq<User>): (m: int)
    ensures m >= 0
    ensures forall i :: 0 <= i < |users| ==> users[i].id <= m
    ensures m == 0 || exists i :: 0 <= i < |users| && users[i].id == m
  {
    if users == [] then 0
    else
      var rest := MaxId(users[1..]);
      assert forall i :: 1 <= i < |users| ==> users[i] == users[1..][i - 1];
      if users[0].id > rest then users[0].id
      else
        assert rest != 0 ==> exists i :: 1 <= i < |users| && users[i].id == rest by {
          if rest != 0 {
            var k :| 0 <= k < |users[1..]| && users[1..][k].id == rest;
            assert users[k + 1].id == rest;
          }
        }
        rest
  }

  /** The id `post` gives a new user. */
  function NextId(users: seq<User>): int {
    MaxId(users) + 1
  }

  /** The new id is larger than every existing id, and 1 on an empty store. */
  lemma NextIdFresh(users: seq<User>)
    ensures forall i :: 0 <= i < |users| ==> users[i].id < NextId(users)
    ensures NextId(users) >= 1
    ensures users == [] ==> NextId(users) == 1
  {
  }

  /** The first user posted to the initial store gets id 4. */
  lemma InitialNextId()
    ensures UniqueIds(InitialUsers) && NextId(InitialUsers) == 4
  {
    assert InitialUsers[1..] == [InitialUsers[1], InitialUsers[2]];
    assert InitialUsers[1..][1..] == [InitialUsers[2]];
    assert InitialUsers[1..][1..][1..] == [];
  }

  /** `!name || !email`: either field is missing or empty. */
  predicate Rejected(name: Option<string>, email: Option<string>) {
    !StrTruthy(name) || !StrTruthy(email)
  }

  /** The store after `post` with the given body fields. */
  function PostStore(users: seq<User>, name: Option<string>, email: Option<string>): seq<User> {
    if Rejected(name, email) then users
    else users + [User(NextId(users), name.value, email.value)]
  }

  /** What `post` sets on the context. */
  function PostResponse(users: seq<User>, name: Option<string>, email: Option<string>): Response {
    if Rejected(name, email) then Response(Some(400), ErrorBody("Name and email are required"))
    else Response(Some(201), OneUser(User(NextId(users), name.value, email.value)))
  }

  /** A rejected post leaves the store as it is and answers 400 with an error; an
      accepted one appends exactly one user, with a fresh id and the given name
      and email, keeps every existing entry, and answers 201 with that user. */
  lemma PostEffect(users: seq<User>, name: Option<string>, email: Option<string>)
    ensures var after, r := PostStore(users, name, email), PostResponse(users, name, email);
      && (Rejected(name, email) ==> after == users && r.status == Some(400) && r.body.ErrorBody?)
      && (!Rejected(name, email) ==>
            && |after| == |users| + 1 && after[..|users|] == users
            && after[|users|] == User(after[|users|].id, name.value, email.value)
            && (forall i :: 0 <= i < |users| ==> users[i].id < after[|users|].id)
            && r == Response(Some(201), OneUser(after[|users|])))
  {
    if !Rejected(name, email) {
      assert PostStore(users, name, email)[..|users|] == users;
      NextIdFresh(users);
    }
  }

  /** A post keeps the ids unique. */
  lemma PostKeepsUnique(users: seq<User>, name: Option<string>, email: Option<string>)
    requires UniqueIds(users)
    ensures UniqueIds(PostStore(users, name, email))
  {
    if !Rejected(name, email) {
      var after := PostStore(users, name, email);
      NextIdFresh(users);
      forall i, j | 0 <= i < j < |after|
        ensures after[i].id != after[j].id
      {
        if j == |users| {
          assert after[i] == users[i];
        } else {
          assert after[i] == users[i] && after[j] == users[j];
        }
      }
    }
  }

  /** The store after a sequence of posts, each given by its body fields. */
  function AfterPosts(users: seq<User>, posts: seq<(Option<string>, Option<string>)>): seq<User>
    decreases |posts|
  {
    if posts == [] then users
    else AfterPosts(PostStore(users, posts[0].0, posts[0].1), posts[1..])
  }

  /** Ids stay unique, and earlier entries stay in place, across any sequence of
      posts. */
  lemma {:induction false} PostsKeepUnique(users: seq<User>, posts: seq<(Option<string>, Option<string>)>)
    requires UniqueIds(users)
    ensures UniqueIds(AfterPosts(users, posts))
    ensures |users| <= |AfterPosts(users, posts)| && AfterPosts(users, posts)[..|users|] == users
    decreases |posts|
  {
    if posts != [] {
      var next := PostStore(users, posts[0].0, posts[0].1);
      PostKeepsUnique(users, posts[0].0, posts[0].1);
      PostEffect(users, posts[0].0, posts[0].1);
      PostsKeepUnique(next, posts[1..]);
      var after := AfterPosts(next, posts[1..]);
      assert after[..|users|] == after[..|next|][..|users|];
    }
  }

  /** The module-level `users` array and the two handlers over it. */
  class Store {
    var users: seq<User>

    predicate Valid()
      reads this
    {
      UniqueIds(users)
    }

    constructor ()
      ensures users == InitialUsers && Valid()
    {
      users := InitialUsers;
      InitialNextId();
    }

    /** `get`: the whole list as `{data: users}`; the status is left to Koa and
        the store does not change. */
    method Get() returns (response: Response)
      ensures response == Response(None, UserList(users))
    {
      response := Response(None, UserList(users));
    }

    /** `post`, with the request body's `name` and `email` (`None` when absent). */
    method Post(name: Option<string>, email: Option<string>) returns (response: Response)
      requires Valid()
      modifies this
      ensures users == PostStore(old(users), name, email)
      ensures response == PostResponse(old(users), name, email)
      ensures Valid()
    {
      if !StrTruthy(name) || !StrTruthy(email) {
        response := Response(Some(400), ErrorBody("Name and email are required"));
        return;
      }
      var newUser := User(MaxId(users) + 1, name.value, email.value);
      PostKeepsUnique(users, name, email);
      users := users + [newUser];
      response := Response(Some(201), OneUser(newUser));
    }
  }
}
