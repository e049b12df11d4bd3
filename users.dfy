/** The user table and `UsersService`. */
module Users {
  import opened Common
  import opened Strings
  import opened Tables

  /** The role enumeration; new users are given `UserRole`. */
  datatype Role = UserRole | AdminRole

  /** A row of the `users` table (timestamps are left out: rows are in creation order). */
  datatype User = User(
    id: string, email: string, password: string,
    fullName: Option<string>, avatarUrl: Option<string>,
    role: Role, subscriptionTier: string, creditsRemaining: int, isActive: bool,
    refreshToken: Option<string>)

  /** The columns `findAll` selects: everything but the password and the refresh token. */
  datatype PublicUser = PublicUser(
    id: string, email: string, fullName: Option<string>, avatarUrl: Option<string>,
    role: Role, subscriptionTier: string, creditsRemaining: int, isActive: bool)

  /** `CreateUserDto`; `password` is already hashed by the caller. */
  datatype NewUser = NewUser(email: string, fullName: string, password: string, avatarUrl: Option<string>)

  /** `UpdateUserDto` after validation: `None` for a property the body left out, `Some(None)`
      for an explicit `null`. */
  datatype UserChanges = UserChanges(fullName: Option<Option<string>>, avatarUrl: Option<Option<string>>)

  const DefaultTier := "free"
  const DefaultCredits := 10
  const EmailTakenMessage := "Un utilisateur avec cet email existe déjà"

  function IdOf(u: User): string { u.id }
  function EmailOf(u: User): string { u.email }

  function NotFoundMessage(id: string): string {
    "Utilisateur avec l'ID " + id + " non trouvé"
  }

  /** The stored row for a new user: role USER and the column defaults. */
  function NewRow(dto: NewUser, id: string): (u: User)
    ensures u.id == id && u.email == dto.email && u.password == dto.password
    ensures u.fullName == Some(dto.fullName) && u.avatarUrl == dto.avatarUrl
    ensures u.role == UserRole && u.subscriptionTier == DefaultTier && u.creditsRemaining == DefaultCredits
    ensures u.isActive && u.refreshToken.None?
  {
    User(id, dto.email, dto.password, Some(dto.fullName), dto.avatarUrl, UserRole, DefaultTier,
         DefaultCredits, true, None)
  }

  function PublicView(u: User): PublicUser {
    PublicUser(u.id, u.email, u.fullName, u.avatarUrl, u.role, u.subscriptionTier, u.creditsRemaining, u.isActive)
  }

  /** The public view does not depend on the secrets. */
  lemma PublicViewHidesSecrets(u: User, password: string, refreshToken: Option<string>)
    ensures PublicView(u.(password := password, refreshToken := refreshToken)) == PublicView(u)
  {
  }

  /** `Object.assign(user, dto)`: the properties present overwrite, all else is kept. */
  function ApplyChanges(u: User, c: UserChanges): (r: User)
    ensures r.fullName == (if c.fullName.Some? then c.fullName.value else u.fullName)
    ensures r.avatarUrl == (if c.avatarUrl.Some? then c.avatarUrl.value else u.avatarUrl)
    ensures r.(fullName := u.fullName, avatarUrl := u.avatarUrl) == u
  {
    u.(fullName := if c.fullName.Some? then c.fullName.value else u.fullName,
       avatarUrl := if c.avatarUrl.Some? then c.avatarUrl.value else u.avatarUrl)
  }

  /** An empty update body changes nothing. */
  lemma EmptyChangesKeepUser(u: User)
    ensures ApplyChanges(u, UserChanges(None, None)) == u
  {
  }

  /** The rows after `repository.update(id, { refreshToken })`: every row with the id gets
      the token, an unknown id changes nothing. */
  function WithRefreshToken(rows: seq<User>, id: string, token: Option<string>): (r: seq<User>)
    ensures |r| == |rows|
    ensures forall i :: 0 <= i < |rows| ==>
      r[i] == if rows[i].id == id then rows[i].(refreshToken := token) else rows[i]
  {
    seq(|rows|, i requires 0 <= i < |rows| => if rows[i].id == id then rows[i].(refreshToken := token) else rows[i])
  }

  /** The rows after the credits of user `id` are moved by `amount`. */
  function WithCreditsMoved(rows: seq<User>, id: string, amount: int): (r: seq<User>)
    ensures |r| == |rows|
    ensures forall i :: 0 <= i < |rows| ==>
      r[i] == if rows[i].id == id then rows[i].(creditsRemaining := rows[i].creditsRemaining + amount) else rows[i]
  {
    seq(|rows|, i requires 0 <= i < |rows| =>
      if rows[i].id == id then rows[i].(creditsRemaining := rows[i].creditsRemaining + amount) else rows[i])
  }

  /** The stored token of `id`, once set, is what a later read finds. */
  lemma {:induction false} RefreshTokenStored(rows: seq<User>, id: string, token: Option<string>, i: nat)
    requires i < |rows| && rows[i].id == id
    ensures WithRefreshToken(rows, id, token)[i].refreshToken == token
    ensures PublicView(WithRefreshToken(rows, id, token)[i]) == PublicView(rows[i])
  {
  }

  class UsersService {
    var rows: seq<User>
    /** The counter behind the generated ids. */
    var nextId: nat

    /** Ids and emails are unique, and every id was handed out by the counter. */
    ghost predicate Valid()
      reads this
    {
      && DistinctBy(rows, IdOf)
      && DistinctBy(rows, EmailOf)
      && forall i :: 0 <= i < |rows| ==> rows[i].id in IssuedKeys(nextId)
    }

    constructor()
      ensures rows == [] && nextId == 0 && Valid()
    {
      rows := [];
      nextId := 0;
    }

    /** `findByEmail`. */
    function FindByEmail(email: string): (r: Option<User>)
      reads this
      ensures r.None? <==> forall i :: 0 <= i < |rows| ==> rows[i].email != email
      ensures r.Some? ==> r.value in rows && r.value.email == email
    {
      match FirstWith(rows, EmailOf, email)
      case None => None
      case Some(i) => Some(rows[i])
    }

    /** `findOne`: the row with the id, or NotFound. */
    function FindOne(id: string): (r: Result<User, HttpError>)
      reads this
      ensures r.Err? <==> forall i :: 0 <= i < |rows| ==> rows[i].id != id
      ensures r.Err? ==> r.error == HttpError(NotFound, NotFoundMessage(id))
      ensures r.Ok? ==> r.value in rows && r.value.id == id
    {
      match FirstWith(rows, IdOf, id)
      case None => Err(HttpError(NotFound, NotFoundMessage(id)))
      case Some(i) => Ok(rows[i])
    }

    /** `findAll`: every user, through the public view. */
    function FindAll(): (r: seq<PublicUser>)
      reads this
      ensures |r| == |rows|
      ensures forall i :: 0 <= i < |rows| ==> r[i] == PublicView(rows[i])
    {
      seq(|rows|, i requires 0 <= i < |rows| reads this => PublicView(rows[i]))
    }

    /** `create`: Conflict for a known email, else a new row with a fresh id. */
    method Create(dto: NewUser) returns (r: Result<User, HttpError>)
      requires Valid()
      modifies this
      ensures Valid()
      ensures old(FindByEmail(dto.email)).Some? ==>
        r == Err(HttpError(Conflict, EmailTakenMessage)) && rows == old(rows) && nextId == old(nextId)
      ensures old(FindByEmail(dto.email)).None? ==>
        && r == Ok(NewRow(dto, NatToString(old(nextId))))
        && rows == old(rows) + [r.value] && nextId == old(nextId) + 1
      ensures r.Ok? ==> forall i :: 0 <= i < |old(rows)| ==> old(rows)[i].id != r.value.id
    {
      if FindByEmail(dto.email).Some? {
        return Err(HttpError(Conflict, EmailTakenMessage));
      }
      var user := NewRow(dto, NatToString(nextId));
      NextKeyFresh(nextId);
      DistinctAppend(rows, user, IdOf);
      DistinctAppend(rows, user, EmailOf);
      rows := rows + [user];
      nextId := nextId + 1;
      r := Ok(user);
    }

    /** `update`: NotFound for an unknown id, else the changes applied to that row only. */
    method Update(id: string, changes: UserChanges) returns (r: Result<User, HttpError>)
      requires Valid()
      modifies this
      ensures Valid() && nextId == old(nextId)
      ensures old(FindOne(id)).Err? ==> r == old(FindOne(id)) && rows == old(rows)
      ensures old(FindOne(id)).Ok? ==> r == Ok(ApplyChanges(old(FindOne(id)).value, changes))
      ensures |rows| == |old(rows)|
      ensures forall i :: 0 <= i < |rows| ==>
        rows[i] == if old(rows)[i].id == id then ApplyChanges(old(rows)[i], changes) else old(rows)[i]
    {
      var k := FirstWith(rows, IdOf, id);
      if k.None? {
        return Err(HttpError(NotFound, NotFoundMessage(id)));
      }
      OnlyRowWithKey(rows, IdOf, id);
      var user := ApplyChanges(rows[k.value], changes);
      DistinctUpdate(rows, k.value, user, IdOf);
      DistinctUpdate(rows, k.value, user, EmailOf);
      rows := rows[k.value := user];
      r := Ok(user);
    }

    /** `remove`: NotFound for an unknown id, else the row is gone and all others remain. */
    method Remove(id: string) returns (r: Result<(), HttpError>)
      requires Valid()
      modifies this
      ensures Valid() && nextId == old(nextId)
      ensures r.Err? <==> old(FindOne(id)).Err?
      ensures r.Err? ==> r.error == old(FindOne(id)).error && rows == old(rows)
      ensures r.Ok? ==> forall i :: 0 <= i < |rows| ==> rows[i].id != id
      ensures r.Ok? ==> forall u :: u in rows <==> u in old(rows) && u.id != id
    {
      var k := FirstWith(rows, IdOf, id);
      if k.None? {
        return Err(HttpError(NotFound, NotFoundMessage(id)));
      }
      RemoveByKey(rows, k.value, IdOf);
      var rest := RemoveAt(rows, k.value);
      assert forall i :: 0 <= i < |rest| ==> rest[i] in rows;
      RemoveByKey(rows, k.value, EmailOf);
      rows := rest;
      r := Ok(());
    }

    /** `updateRefreshToken`: sets the stored token (possibly to none) and nothing else. */
    method UpdateRefreshToken(id: string, token: Option<string>)
      requires Valid()
      modifies this
      ensures Valid() && nextId == old(nextId)
      ensures rows == WithRefreshToken(old(rows), id, token)
    {
      var updated := WithRefreshToken(rows, id, token);
      assert forall i :: 0 <= i < |rows| ==> updated[i].id == rows[i].id && updated[i].email == rows[i].email;
      rows := updated;
    }

    /** `updateCredits`: NotFound for an unknown id, else the balance moved by `amount`, with
        no lower bound. */
    method UpdateCredits(id: string, amount: int) returns (r: Result<User, HttpError>)
      requires Valid()
      modifies this
      ensures Valid() && nextId == old(nextId)
      ensures old(FindOne(id)).Err? ==> r == old(FindOne(id)) && rows == old(rows)
      ensures old(FindOne(id)).Ok? ==>
        && r.Ok? && r.value == old(FindOne(id)).value.(creditsRemaining := old(FindOne(id)).value.creditsRemaining + amount)
        && rows == WithCreditsMoved(old(rows), id, amount)
    {
      var k := FirstWith(rows, IdOf, id);
      if k.None? {
        return Err(HttpError(NotFound, NotFoundMessage(id)));
      }
      var user := rows[k.value].(creditsRemaining := rows[k.value].creditsRemaining + amount);
      var moved := WithCreditsMoved(rows, id, amount);
      assert forall i :: 0 <= i < |rows| ==> moved[i].id == rows[i].id && moved[i].email == rows[i].email;
      rows := moved;
      r := Ok(user);
    }
  }
}
