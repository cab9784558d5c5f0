/** The field cleaners of social_media/forms.py: emails and usernames are
    lower-cased and must not be in use by another account. */
module Forms {
  import opened Results
  import opened Text
  import opened Models

  const EmailInUse := "Email is already in use."
  const UsernameInUse := "Username already in use."

  /** `AppUser.objects.exclude(pk=excluded).get(email=address)` finds a row. */
  predicate EmailTaken(users: map<nat, AppUser>, address: string, excluded: Option<nat>) {
    exists p :: p in users && Some(p) != excluded && users[p].email == address
  }

  predicate UsernameTaken(users: map<nat, AppUser>, name: string, excluded: Option<nat>) {
    exists p :: p in users && Some(p) != excluded && users[p].username == name
  }

  /** The shared shape of the four cleaners that check uniqueness; `excluded`
      is the form's instance, None for a registration. */
  function CleanUnique(value: string, taken: bool, message: string): (r: Result<string, string>)
    ensures r.Ok? <==> !taken
    ensures r.Ok? ==> r.value == Lower(value)
    ensures r.Err? ==> r.error == message
  {
    if taken then Err(message) else Ok(Lower(value))
  }

  /** `RegistrationForm.clean_email`. */
  function RegistrationCleanEmail(users: map<nat, AppUser>, email: string): (r: Result<string, string>)
    ensures r.Ok? <==> !EmailTaken(users, Lower(email), None)
    ensures r.Ok? ==> r.value == Lower(email) && IsLower(r.value)
    ensures r.Err? ==> r.error == EmailInUse
  {
    CleanUnique(email, EmailTaken(users, Lower(email), None), EmailInUse)
  }

  /** `RegistrationForm.clean_username`. */
  function RegistrationCleanUsername(users: map<nat, AppUser>, username: string): (r: Result<string, string>)
    ensures r.Ok? <==> !UsernameTaken(users, Lower(username), None)
    ensures r.Ok? ==> r.value == Lower(username) && IsLower(r.value)
    ensures r.Err? ==> r.error == UsernameInUse
  {
    CleanUnique(username, UsernameTaken(users, Lower(username), None), UsernameInUse)
  }

  /** `LoginForm.clean_email`. */
  function LoginCleanEmail(email: string): (r: string)
    ensures IsLower(r) && |r| == |email|
    ensures forall i :: 0 <= i < |r| ==> r[i] == LowerChar(email[i])
    ensures IsLower(email) ==> r == email
  {
    if IsLower(email) then LowerOfLower(email); Lower(email) else Lower(email)
  }

  /** `ProfileUpdateForm.clean_email` for the form of user `me`. */
  function ProfileCleanEmail(users: map<nat, AppUser>, me: nat, email: string): (r: Result<string, string>)
    ensures r.Ok? <==> !EmailTaken(users, Lower(email), Some(me))
    ensures r.Ok? ==> r.value == Lower(email) && IsLower(r.value)
    ensures r.Err? ==> r.error == EmailInUse
  {
    CleanUnique(email, EmailTaken(users, Lower(email), Some(me)), EmailInUse)
  }

  /** `ProfileUpdateForm.clean_username` for the form of user `me`. */
  function ProfileCleanUsername(users: map<nat, AppUser>, me: nat, username: string): (r: Result<string, string>)
    ensures r.Ok? <==> !UsernameTaken(users, Lower(username), Some(me))
    ensures r.Ok? ==> r.value == Lower(username) && IsLower(r.value)
    ensures r.Err? ==> r.error == UsernameInUse
  {
    CleanUnique(username, UsernameTaken(users, Lower(username), Some(me)), UsernameInUse)
  }

  /** Cleaning twice is cleaning once: a value the form accepted is accepted
      again unchanged. */
  lemma RegistrationCleanIdempotent(users: map<nat, AppUser>, email: string, username: string)
    ensures RegistrationCleanEmail(users, email).Ok? ==>
              RegistrationCleanEmail(users, RegistrationCleanEmail(users, email).value) == RegistrationCleanEmail(users, email)
    ensures RegistrationCleanUsername(users, username).Ok? ==>
              RegistrationCleanUsername(users, RegistrationCleanUsername(users, username).value) == RegistrationCleanUsername(users, username)
  {
    LowerIdempotent(email);
    LowerIdempotent(username);
  }

  /** A user who keeps their own (lower-case) email and username passes the
      profile form, since their own row is excluded. */
  lemma ProfileKeepsOwnValues(users: map<nat, AppUser>, me: nat)
    requires UsersWellFormed(users) && me in users
    requires IsLower(users[me].email) && IsLower(users[me].username)
    ensures ProfileCleanEmail(users, me, users[me].email) == Ok(users[me].email)
    ensures ProfileCleanUsername(users, me, users[me].username) == Ok(users[me].username)
  {
    LowerOfLower(users[me].email);
    LowerOfLower(users[me].username);
  }

  /** Another account's email or username, in any letter case, is refused by
      the profile form, and by registration. */
  lemma OthersValuesRejected(users: map<nat, AppUser>, me: nat, other: nat, email: string, username: string)
    requires other in users && other != me
    requires Lower(email) == users[other].email && Lower(username) == users[other].username
    ensures ProfileCleanEmail(users, me, email) == Err(EmailInUse)
    ensures ProfileCleanUsername(users, me, username) == Err(UsernameInUse)
    ensures RegistrationCleanEmail(users, email) == Err(EmailInUse)
    ensures RegistrationCleanUsername(users, username) == Err(UsernameInUse)
  {
    assert EmailTaken(users, Lower(email), Some(me)) && EmailTaken(users, Lower(email), None);
    assert UsernameTaken(users, Lower(username), Some(me)) && UsernameTaken(users, Lower(username), None);
  }

  /** Values that pass registration cleaning satisfy the table's uniqueness
      constraints, so saving the new account cannot fail on them. */
  lemma CleanedRegistrationIsFree(users: map<nat, AppUser>, email: string, username: string)
    requires RegistrationCleanEmail(users, email).Ok? && RegistrationCleanUsername(users, username).Ok?
    ensures forall p :: p in users ==> && users[p].email != RegistrationCleanEmail(users, email).value
                                       && users[p].username != RegistrationCleanUsername(users, username).value
  {
  }
}
