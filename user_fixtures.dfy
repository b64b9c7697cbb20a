/** The user fixture: 25 users whose e-mail and user name carry their index. */
module UserFixtures {
  import Decimal
  import opened Entities

  const UserCount: nat := 25
  const PlainPassword: string := "password"

  /** `sprintf('user+%d@email.com', $index)`. */
  function Email(index: int): string {
    "user+" + Decimal.FromInt(index) + "@email.com"
  }

  /** `sprintf('user+%d', $index)`. */
  function Username(index: int): string {
    "user+" + Decimal.FromInt(index)
  }

  /** `array_map(..., range(0, 24))`: user `i` sits at position `i`. */
  function AllUsers(): (users: seq<User>)
    ensures |users| == UserCount
    ensures forall i :: 0 <= i < |users| ==>
      users[i].email == Email(i) && users[i].username == Username(i)
      && users[i].plainPassword == PlainPassword
  {
    seq(UserCount, i requires 0 <= i => User(Email(i), PlainPassword, Username(i)))
  }

  /** Distinct indices give distinct e-mails, user names and so distinct users. */
  lemma UsersDistinct()
    ensures forall i, j :: 0 <= i < j < |AllUsers()| ==>
      AllUsers()[i].email != AllUsers()[j].email
      && AllUsers()[i].username != AllUsers()[j].username
      && AllUsers()[i] != AllUsers()[j]
  {
    forall i, j | 0 <= i < j < |AllUsers()|
      ensures AllUsers()[i].email != AllUsers()[j].email
      ensures AllUsers()[i].username != AllUsers()[j].username
    {
      if AllUsers()[i].email == AllUsers()[j].email {
        Decimal.FramedInjective("user+", "@email.com", i, j);
      }
      if AllUsers()[i].username == AllUsers()[j].username {
        Decimal.FramedInjective("user+", "", i, j);
      }
    }
  }

  function UserEntities(users: seq<User>): (entities: seq<Entity>)
    ensures |entities| == |users|
  {
    if |users| == 0 then [] else UserEntities(users[..|users| - 1]) + [UserEntity(users[|users| - 1])]
  }

  /** The `foreach` of `load`: one persist per user, in order. */
  method PersistUsers(manager: ObjectManager, users: seq<User>)
    modifies manager
    ensures manager.log == old(manager.log) + PersistAll(UserEntities(users))
  {
    for k := 0 to |users|
      invariant manager.log == old(manager.log) + PersistAll(UserEntities(users[..k]))
    {
      manager.Persist(UserEntity(users[k]));
      assert users[..k + 1][..k] == users[..k];
    }
    assert users[..|users|] == users;
  }

  /** `load`: persists every user once, in index order, then flushes once. */
  method Load(manager: ObjectManager) returns (users: seq<User>)
    modifies manager
    ensures users == AllUsers()
    ensures manager.log == old(manager.log) + PersistAll(UserEntities(users)) + [Flush]
  {
    users := AllUsers();
    PersistUsers(manager, users);
    manager.Flush();
  }
}
