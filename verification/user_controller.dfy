/** The account handlers (server/controllers/userController.js) as methods on
    an in-memory users collection. bcrypt and JWT are the store's `hash` and
    `sign` functions, fixed when the store is built; the proofs hold for every
    choice of them. No response type has a password field. */
module UserController {
  import opened Common
  import opened UserModel
  import opened DiaryEntryModel
  import DiaryEntryController

  /** `{_id, name, email, token}` sent by register and login. */
  datatype AuthResponse = AuthResponse(id: UserId, name: string, email: string, token: string)

  /** The profile sent by the profile update handler. */
  datatype ProfileResponse = ProfileResponse(
    id: UserId, name: string, email: string, phone: Option<string>,
    dateOfBirth: Option<string>, gender: Option<string>, ethnicity: Option<string>,
    address: Option<string>, token: string)

  /** `User.findById(id).select('-password')`. */
  datatype ProfileView = ProfileView(
    id: UserId, name: string, email: string, phone: Option<string>,
    dateOfBirth: Option<string>, gender: Option<string>, ethnicity: Option<string>,
    address: Option<string>)

  /** The body of a profile update request. */
  datatype ProfileUpdate = ProfileUpdate(
    name: Option<string>, email: Option<string>, phone: Option<string>,
    dateOfBirth: Option<string>, gender: Option<string>, ethnicity: Option<string>,
    address: Option<string>, password: Option<string>)

  /** The assignments of updateUserProfile, before the save: name and email
      are kept when the supplied value is falsy; phone, gender, ethnicity and
      address are overwritten with whatever was supplied; a falsy date of
      birth becomes null; the password changes (to its hash, by the pre-save
      hook) only when a truthy one is supplied. */
  function MergeProfile(u: User, b: ProfileUpdate, hash: string -> string): (r: User)
    ensures r.id == u.id
    ensures r.name == (if Truthy(b.name) then b.name.value else u.name)
    ensures r.email == (if Truthy(b.email) then b.email.value else u.email)
    ensures r.phone == b.phone && r.gender == b.gender
    ensures r.ethnicity == b.ethnicity && r.address == b.address
    ensures r.dateOfBirth == (if Truthy(b.dateOfBirth) then b.dateOfBirth else None)
    ensures r.password == (if Truthy(b.password) then hash(b.password.value) else u.password)
  {
    u.(name := OrElse(b.name, u.name),
       email := OrElse(b.email, u.email),
       phone := b.phone,
       dateOfBirth := if Truthy(b.dateOfBirth) then b.dateOfBirth else None,
       gender := b.gender,
       ethnicity := b.ethnicity,
       address := b.address,
       password := if Truthy(b.password) then hash(b.password.value) else u.password)
  }

  /** A profile update without a password leaves the stored hash alone, so the
      old password still logs in; one with a password makes that password the
      one that logs in. */
  lemma MergeProfilePassword(u: User, b: ProfileUpdate, hash: string -> string, oldPassword: string)
    requires PasswordMatches(hash, oldPassword, u.password)
    ensures !Truthy(b.password) ==> PasswordMatches(hash, oldPassword, MergeProfile(u, b, hash).password)
    ensures Truthy(b.password) ==> PasswordMatches(hash, b.password.value, MergeProfile(u, b, hash).password)
  {
  }

  /** A merged profile is a valid document whenever the email it ends up with
      is, since the name can only be replaced by a non-empty one. */
  lemma MergeProfileValid(u: User, b: ProfileUpdate, hash: string -> string)
    requires ValidUser(u)
    requires Truthy(b.email) ==> ValidEmail(b.email.value)
    ensures ValidUser(MergeProfile(u, b, hash))
  {
  }

  function ViewOf(u: User): (v: ProfileView)
    ensures v.id == u.id && v.name == u.name && v.email == u.email
    ensures v.phone == u.phone && v.dateOfBirth == u.dateOfBirth
    ensures v.gender == u.gender && v.ethnicity == u.ethnicity && v.address == u.address
  {
    ProfileView(u.id, u.name, u.email, u.phone, u.dateOfBirth, u.gender, u.ethnicity, u.address)
  }

  /** The users collection. */
  class UserStore {
    const hash: string -> string
    const sign: UserId -> string
    var users: map<UserId, User>
    var nextId: UserId

    /** Every document is stored under its own id and passes the schema's
        validators, emails are unique, and ids below `nextId` are the only
        ones in use. */
    ghost predicate Valid()
      reads this
    {
      && (forall id :: id in users ==> users[id].id == id && ValidUser(users[id]) && id < nextId)
      && UniqueEmails(users)
    }

    constructor (hash: string -> string, sign: UserId -> string)
      ensures Valid() && users == map[]
      ensures this.hash == hash && this.sign == sign
    {
      this.hash := hash;
      this.sign := sign;
      users := map[];
      nextId := 0;
    }

    /** registerUser: 400 when a required field is falsy, 400 when the email
        is already registered, 500 when `User.create` fails validation (an
        email the pattern refuses), otherwise 201 with a new user whose stored
        password is the hash of the given one. */
    method Register(name: Option<string>, email: Option<string>, password: Option<string>,
                    phone: Option<string>)
      returns (status: int, resp: Option<AuthResponse>)
      requires Valid()
      modifies this
      ensures Valid()
      ensures !Truthy(name) || !Truthy(email) || !Truthy(password) ==>
        status == BAD_REQUEST && resp == None && users == old(users)
      ensures Truthy(name) && Truthy(email) && Truthy(password) && EmailTaken(old(users), email.value) ==>
        status == BAD_REQUEST && resp == None && users == old(users)
      ensures Truthy(name) && Truthy(email) && Truthy(password) && !EmailTaken(old(users), email.value)
              && !ValidEmail(email.value) ==>
        status == SERVER_ERROR && resp == None && users == old(users)
      ensures status == CREATED <==>
        Truthy(name) && Truthy(email) && Truthy(password) && !EmailTaken(old(users), email.value)
        && ValidEmail(email.value)
      ensures status == CREATED ==>
        && resp.Some?
        && var id := resp.value.id;
        && id !in old(users)
        && users == old(users)[id := User(id, name.value, email.value, hash(password.value),
                                          phone, None, None, None, None)]
        && resp.value == AuthResponse(id, name.value, email.value, sign(id))
    {
      if !Truthy(name) || !Truthy(email) || !Truthy(password) {
        return BAD_REQUEST, None;
      }
      if exists id :: id in users && users[id].email == email.value {
        return BAD_REQUEST, None;
      }
      if !ValidEmail(email.value) {
        return SERVER_ERROR, None;
      }
      var id := nextId;
      var u := User(id, name.value, email.value, hash(password.value), phone, None, None, None, None);
      users := users[id := u];
      nextId := nextId + 1;
      return CREATED, Some(AuthResponse(id, u.name, u.email, sign(id)));
    }

    /** loginUser: 400 when a field is falsy; otherwise 200 exactly when a
        user has that email and the password matches its hash, and the same
        401 whether the email is unknown or the password wrong. */
    method Login(email: Option<string>, password: Option<string>)
      returns (status: int, resp: Option<AuthResponse>)
      requires Valid()
      ensures !Truthy(email) || !Truthy(password) ==> status == BAD_REQUEST && resp == None
      ensures Truthy(email) && Truthy(password) ==>
        (status == OK || status == UNAUTHORIZED)
      ensures status == OK <==>
        Truthy(email) && Truthy(password) &&
        exists id :: id in users && users[id].email == email.value
                     && PasswordMatches(hash, password.value, users[id].password)
      ensures status == OK ==>
        resp.Some? && resp.value.id in users && users[resp.value.id].email == email.value
        && resp.value == AuthResponse(resp.value.id, users[resp.value.id].name, email.value,
                                      sign(resp.value.id))
      ensures status != OK ==> resp == None
    {
      if !Truthy(email) || !Truthy(password) {
        return BAD_REQUEST, None;
      }
      if id :| id in users && users[id].email == email.value {
        var u := users[id];
        if PasswordMatches(hash, password.value, u.password) {
          return OK, Some(AuthResponse(id, u.name, u.email, sign(id)));
        }
        assert forall j :: j in users && users[j].email == email.value ==> j == id;
      }
      return UNAUTHORIZED, None;
    }

    /** getUserProfile: the stored profile without the password, or 404. */
    method GetProfile(caller: UserId) returns (status: int, view: Option<ProfileView>)
      requires Valid()
      ensures caller !in users ==> status == NOT_FOUND && view == None
      ensures caller in users ==> status == OK && view == Some(ViewOf(users[caller]))
    {
      if caller !in users {
        return NOT_FOUND, None;
      }
      return OK, Some(ViewOf(users[caller]));
    }

    /** updateUserProfile: 404 for a missing user; a save that fails the
        email pattern or collides with another user's email is a 500 and
        changes nothing; otherwise the merged profile is stored and sent back
        with a fresh token. */
    method UpdateProfile(caller: UserId, b: ProfileUpdate)
      returns (status: int, resp: Option<ProfileResponse>)
      requires Valid()
      modifies this
      ensures Valid()
      ensures caller !in old(users) ==> status == NOT_FOUND && resp == None && users == old(users)
      ensures caller in old(users) ==>
        var m := MergeProfile(old(users)[caller], b, hash);
        if !ValidEmail(m.email) || exists id :: id in old(users) && id != caller && old(users)[id].email == m.email
        then status == SERVER_ERROR && resp == None && users == old(users)
        else && status == OK
             && users == old(users)[caller := m]
             && resp == Some(ProfileResponse(caller, m.name, m.email, m.phone, m.dateOfBirth,
                                             m.gender, m.ethnicity, m.address, sign(caller)))
    {
      if caller !in users {
        return NOT_FOUND, None;
      }
      var m := MergeProfile(users[caller], b, hash);
      if !ValidEmail(m.email) {
        return SERVER_ERROR, None;
      }
      if exists id :: id in users && id != caller && users[id].email == m.email {
        return SERVER_ERROR, None;
      }
      users := users[caller := m];
      return OK, Some(ProfileResponse(caller, m.name, m.email, m.phone, m.dateOfBirth,
                                      m.gender, m.ethnicity, m.address, sign(caller)));
    }

    /** changePassword: 400 when a field is falsy, 401 with nothing changed
        when the user is missing or the current password does not match,
        otherwise the stored hash becomes the hash of the new password. */
    method ChangePassword(caller: UserId, currentPassword: Option<string>, newPassword: Option<string>)
      returns (status: int)
      requires Valid()
      modifies this
      ensures Valid()
      ensures !Truthy(currentPassword) || !Truthy(newPassword) ==> status == BAD_REQUEST && users == old(users)
      ensures Truthy(currentPassword) && Truthy(newPassword) ==>
        if caller in old(users) && PasswordMatches(hash, currentPassword.value, old(users)[caller].password)
        then status == OK && users == old(users)[caller := old(users)[caller].(password := hash(newPassword.value))]
        else status == UNAUTHORIZED && users == old(users)
    {
      if !Truthy(currentPassword) || !Truthy(newPassword) {
        return BAD_REQUEST;
      }
      if caller in users && PasswordMatches(hash, currentPassword.value, users[caller].password) {
        users := users[caller := users[caller].(password := hash(newPassword.value))];
        return OK;
      }
      return UNAUTHORIZED;
    }

    /** deleteAccount: 404 when the user is missing; otherwise first every
        entry of the user is deleted, then the user. */
    method DeleteAccount(caller: UserId, diary: DiaryEntryController.EntryStore)
      returns (status: int)
      requires Valid() && diary.Valid()
      modifies this, diary
      ensures Valid() && diary.Valid()
      ensures caller !in old(users) ==>
        status == NOT_FOUND && users == old(users) && diary.entries == old(diary.entries)
      ensures caller in old(users) ==>
        && status == OK
        && users == old(users) - {caller}
        && diary.entries == DiaryEntryController.OthersEntries(old(diary.entries), caller)
    {
      if caller !in users {
        return NOT_FOUND;
      }
      diary.DeleteMany(caller);
      users := users - {caller};
      return OK;
    }
  }
}
