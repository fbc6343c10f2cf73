/** The user record (server/models/userModel.js): required name, email and
    password, optional phone, the email pattern, and email uniqueness across
    the collection. The profile fields the profile handler also writes
    (date of birth, gender, ethnicity, address) are carried as optional
    strings. `password` always holds what the pre-save hook stored: the hash
    of the plaintext. */
module UserModel {
  import opened Common

  datatype User = User(
    id: UserId,
    name: string,
    email: string,
    password: string,              // the stored hash
    phone: Option<string>,
    dateOfBirth: Option<string>,
    gender: Option<string>,
    ethnicity: Option<string>,
    address: Option<string>)

  /** The characters JavaScript's `.` does not match. */
  predicate IsLineTerminator(c: char) {
    c == '\n' || c == '\r' || c == '\U{2028}' || c == '\U{2029}'
  }

  predicate NoLineTerminator(s: string, lo: int, hi: int)
    requires 0 <= lo <= hi <= |s|
  {
    forall i :: lo <= i < hi ==> !IsLineTerminator(s[i])
  }

  /** The unanchored pattern `.+@.+\..+` matches `s[a..b]` with its `@` at
      `p` and its `.` at `q`: each `.+` covers at least one character and
      none of the covered characters is a line terminator. */
  ghost predicate PatternAt(s: string, a: int, p: int, q: int, b: int) {
    && 0 <= a < p && p + 1 < q && q + 1 < b <= |s|
    && s[p] == '@' && s[q] == '.'
    && NoLineTerminator(s, a, b)
  }

  ghost predicate PatternMatches(s: string) {
    exists a, p, q, b :: PatternAt(s, a, p, q, b)
  }

  /** The check the schema's `match` validator performs: some `@` has a
      character before it, and some later `.` has a character between it and
      the `@` and one after it, with no line terminator from the character
      before the `@` to the one after the `.`. */
  function ValidEmail(s: string): (r: bool)
    ensures r ==> 5 <= |s| && '@' in s && '.' in s
  {
    exists p, q | 1 <= p < |s| && p + 1 < q < |s| - 1 ::
      s[p] == '@' && s[q] == '.' && NoLineTerminator(s, p - 1, q + 2)
  }

  /** The executable check accepts exactly the strings the regular expression matches. */
  lemma ValidEmailIsPattern(s: string)
    ensures ValidEmail(s) <==> PatternMatches(s)
  {
    if ValidEmail(s) {
      var p, q :| 1 <= p < |s| && p + 1 < q < |s| - 1 &&
        s[p] == '@' && s[q] == '.' && NoLineTerminator(s, p - 1, q + 2);
      assert PatternAt(s, p - 1, p, q, q + 2);
    }
    if PatternMatches(s) {
      var a, p, q, b :| PatternAt(s, a, p, q, b);
      assert NoLineTerminator(s, p - 1, q + 2);
    }
  }

  /** Mongoose's validators for a stored user document: a String path marked
      `required` refuses the empty string, and the email must match the
      pattern (which the empty string never does). The `required` password is
      checked on the plaintext, before the pre-save hook replaces it. */
  function ValidUser(u: User): (r: bool)
    ensures r ==> u.name != "" && 5 <= |u.email|
  {
    u.name != "" && ValidEmail(u.email)
  }

  /** A few strings the pattern accepts and refuses: it is unanchored, and a
      line break inside the match breaks it. */
  lemma EmailPatternExamples()
    ensures ValidEmail("a@b.c")
    ensures ValidEmail("<x@y.z>")
    ensures !ValidEmail("a@b.")
    ensures !ValidEmail("@b.c")
    ensures !ValidEmail("a@\nb.c")
  {
    assert "a@b.c"[1] == '@' && "a@b.c"[3] == '.';
    assert "<x@y.z>"[2] == '@' && "<x@y.z>"[4] == '.';
    var broken := "a@\nb.c";
    forall p, q | 1 <= p < |broken| && p + 1 < q < |broken| - 1 && broken[p] == '@' && broken[q] == '.'
      ensures !NoLineTerminator(broken, p - 1, q + 2)
    {
      assert p == 1;
      assert IsLineTerminator(broken[2]);
    }
  }

  /** The unique index on email. */
  predicate UniqueEmails(users: map<UserId, User>) {
    forall i, j :: i in users && j in users && users[i].email == users[j].email ==> i == j
  }

  /** `User.findOne({email})`. */
  predicate EmailTaken(users: map<UserId, User>, email: string) {
    exists id :: id in users && users[id].email == email
  }

  /** `matchPassword`: comparing a plaintext against the stored hash with the
      hash function the store was configured with. */
  predicate PasswordMatches(hash: string -> string, entered: string, stored: string) {
    hash(entered) == stored
  }
}
