/** The tables of social_media/models.py and chat/models.py, the rules the
    database keeps about them, the model-level helpers (image paths,
    `Post.clean`, `accept_friend_request`) and `AppUserManager`. */
module Models {
  import opened Results
  import opened Text

  /** A relationship row is keyed by its (user1, user2) primary keys. */
  type Pair = (nat, nat)

  /** The three choices of `relation_type`. */
  datatype RelationType = PendingUser1User2 | PendingUser2User1 | Friends

  /** The stored text of each choice. */
  function RelationTypeName(t: RelationType): (s: string)
    ensures s in {"pending_user1_user2", "pending_user2_user1", "friends"}
  {
    match t
    case PendingUser1User2 => "pending_user1_user2"
    case PendingUser2User1 => "pending_user2_user1"
    case Friends => "friends"
  }

  lemma RelationTypeNamesDistinct(s: RelationType, t: RelationType)
    requires RelationTypeName(s) == RelationTypeName(t)
    ensures s == t
  {
  }

  /** A `UserRelationship` row without its key; `dateModified` is the
      logical time of its last save (`auto_now`). */
  datatype UserRelationship = UserRelationship(relationType: RelationType, dateModified: nat)

  /** An `AppUser` row; `password` is the password as given to
      `set_password` (its hashing is not modelled) and `profileImage` the
      stored name of the profile image file. */
  datatype AppUser = AppUser(
    email: string,
    username: string,
    password: string,
    profileImage: string,
    isStaff: bool,
    isSuperuser: bool,
    isActive: bool)

  /** The `profile_image` default of a new user. */
  const DefaultProfileImagePath := "images/default_images/default_profile.png"

  /** A `Post` row; `None` is a NULL column. */
  datatype Post = Post(pk: nat, owner: nat, text: Option<string>, image: Option<string>, dateCreated: nat)

  /** A chat `Message` row. */
  datatype Message = Message(sender: nat, receiver: nat, content: string, dateCreated: nat)

  /** `Message.content` is a `CharField(max_length=500)`. */
  const MessageMaxLength: nat := 500

  // ---------------------------------------------------------------------
  // What the database guarantees about its tables.

  /** `email` is `unique=True`; `username` is unique in `AbstractUser`;
      auto-increment keys start at 1. */
  ghost predicate UsersWellFormed(users: map<nat, AppUser>) {
    && (forall pk :: pk in users ==> pk >= 1)
    && (forall p, q :: p in users && q in users && users[p].email == users[q].email ==> p == q)
    && (forall p, q :: p in users && q in users && users[p].username == users[q].username ==> p == q)
  }

  /** Every relationship key has user1 < user2 and both are users. */
  ghost predicate RelationsWellFormed(users: map<nat, AppUser>, rels: map<Pair, UserRelationship>) {
    forall k :: k in rels ==> k.0 < k.1 && k.0 in users && k.1 in users
  }

  /** Modification times lie in the past and no two rows share one. */
  ghost predicate RelationDatesWellFormed(rels: map<Pair, UserRelationship>, clock: nat) {
    && (forall k :: k in rels ==> rels[k].dateModified < clock)
    && (forall k, l :: k in rels && l in rels && k != l ==> rels[k].dateModified != rels[l].dateModified)
  }

  ghost predicate PostsWellFormed(users: map<nat, AppUser>, posts: seq<Post>) {
    && (forall i :: 0 <= i < |posts| ==> posts[i].owner in users)
    && (forall i, j :: 0 <= i < j < |posts| ==> posts[i].pk != posts[j].pk)
  }

  /** Messages are stored in creation order (`ordering = ('date_created',)`),
      between existing users, within the column width. */
  ghost predicate MessagesWellFormed(users: map<nat, AppUser>, messages: seq<Message>, clock: nat) {
    && (forall i :: 0 <= i < |messages| ==>
          && messages[i].sender in users && messages[i].receiver in users
          && |messages[i].content| <= MessageMaxLength
          && messages[i].dateCreated < clock)
    && (forall i, j :: 0 <= i < j < |messages| ==> messages[i].dateCreated < messages[j].dateCreated)
  }

  /** `AppUser.objects.get(username=name)`: None where it raises
      `DoesNotExist`. */
  function UserWithUsername(users: map<nat, AppUser>, name: string): (r: Option<nat>)
    requires UsersWellFormed(users)
    ensures r.Some? ==> r.value in users && users[r.value].username == name
    ensures r.None? ==> forall p :: p in users ==> users[p].username != name
  {
    if exists p :: p in users && users[p].username == name then
      var p :| p in users && users[p].username == name; Some(p)
    else None
  }

  /** `AppUser.objects.get(email=address)`. */
  function UserWithEmail(users: map<nat, AppUser>, address: string): (r: Option<nat>)
    requires UsersWellFormed(users)
    ensures r.Some? ==> r.value in users && users[r.value].email == address
    ensures r.None? ==> forall p :: p in users ==> users[p].email != address
  {
    if exists p :: p in users && users[p].email == address then
      var p :| p in users && users[p].email == address; Some(p)
    else None
  }

  /** A user is found under their own username and email. */
  lemma LookupOwnKeys(users: map<nat, AppUser>, pk: nat)
    requires UsersWellFormed(users) && pk in users
    ensures UserWithUsername(users, users[pk].username) == Some(pk)
    ensures UserWithEmail(users, users[pk].email) == Some(pk)
  {
  }

  // ---------------------------------------------------------------------
  // Upload paths.

  /** `get_profile_image_path`. */
  function ProfileImagePath(userPk: nat): (r: string)
    ensures |r| == 40 + |NatToString(userPk)|
    ensures r[..22] == "images/profile_images/" && r[|r| - 18..] == "/profile_image.jpg"
    ensures r[22..|r| - 18] == NatToString(userPk)
  {
    "images/profile_images/" + NatToString(userPk) + "/profile_image.jpg"
  }

  /** `str()` of a primary key that may still be `None`. */
  function PkText(pk: Option<nat>): (s: string)
    ensures pk.Some? ==> s == NatToString(pk.value)
    ensures pk.None? ==> s == "None"
  {
    if pk.Some? then NatToString(pk.value) else "None"
  }

  lemma PkTextInjective(a: Option<nat>, b: Option<nat>)
    requires PkText(a) == PkText(b)
    ensures a == b
  {
    if a.Some? && b.Some? {
      NatToStringInjective(a.value, b.value);
    }
  }

  /** `get_post_image_path`: a folder per owner and per `instance.pk`, which
      is `None` while a new post is being inserted. */
  function PostImagePath(ownerPk: nat, pk: Option<nat>): (r: string)
    ensures |r| == 35 + |NatToString(ownerPk)| + |PkText(pk)|
    ensures r[..19] == "images/post_images/" && r[|r| - 15..] == "/post_image.jpg"
    ensures r[19..|r| - 15] == NatToString(ownerPk) + "/" + PkText(pk)
  {
    "images/post_images/" + NatToString(ownerPk) + "/" + PkText(pk) + "/post_image.jpg"
  }

  /** The path determines the owner and the key folder: posts with keys get
      folders of their own, and a post stored before it had a key never shares
      a folder with one that had. */
  lemma PostImagePathInjective(o1: nat, k1: Option<nat>, o2: nat, k2: Option<nat>)
    requires PostImagePath(o1, k1) == PostImagePath(o2, k2)
    ensures o1 == o2 && k1 == k2
  {
    var prefix, suffix := "images/post_images/", "/post_image.jpg";
    var a1, a2 := NatToString(o1), NatToString(o2);
    var t1, t2 := PkText(k1), PkText(k2);
    var m1, m2 := a1 + ['/'] + t1, a2 + ['/'] + t2;
    PostImagePathParts(o1, k1);
    PostImagePathParts(o2, k2);
    StripAround(prefix, m1, m2, suffix);
    SplitAtFirst(a1, t1, a2, t2, '/');
    NatToStringInjective(o1, o2);
    PkTextInjective(k1, k2);
  }

  lemma PostImagePathParts(o: nat, k: Option<nat>)
    ensures PostImagePath(o, k) == "images/post_images/" + (NatToString(o) + ['/'] + PkText(k)) + "/post_image.jpg"
  {
  }

  /** Profile images of distinct users do not collide. */
  lemma ProfileImagePathInjective(a: nat, b: nat)
    requires ProfileImagePath(a) == ProfileImagePath(b)
    ensures a == b
  {
    var prefix := "images/profile_images/";
    var suffix := "/profile_image.jpg";
    var pa, pb := ProfileImagePath(a), ProfileImagePath(b);
    assert |NatToString(a)| == |NatToString(b)|;
    assert NatToString(a) == pa[|prefix|..|pa| - |suffix|];
    assert NatToString(b) == pb[|prefix|..|pb| - |suffix|];
    NatToStringInjective(a, b);
  }

  // ---------------------------------------------------------------------
  // Post.clean

  const EmptyPostError := "Image or text should not be empty."

  /** How `self.image` reads on a model instance: Django wraps the stored
      name, NULL included, in a `FieldFile`. The wrapper is never `None`; it
      is falsy when it holds no name. */
  datatype FieldFile = FieldFile(name: Option<string>)

  function ImageAttribute(p: Post): Option<FieldFile> {
    Some(FieldFile(p.image))
  }

  predicate HasFile(f: FieldFile) {
    f.name.Some? && f.name.value != ""
  }

  /** `Post.clean` as written: `self.image is None` tests the wrapper. */
  function PostCleanAsWritten(p: Post): Result<(), string> {
    if ImageAttribute(p).None? && p.text.None? then Err(EmptyPostError) else Ok(())
  }

  /** As written, `clean` accepts every post, even one with neither an
      image nor a text, which the corrected check refuses. */
  lemma PostCleanAsWrittenNeverRaises(p: Post)
    ensures PostCleanAsWritten(p) == Ok(())
    ensures p.image.None? && p.text.None? ==> PostClean(p) == Err(EmptyPostError)
  {
  }

  /** `Post.clean` as intended: a post needs a text or an image file. */
  function PostClean(p: Post): (r: Result<(), string>)
    ensures r.Err? <==> (p.image.None? || p.image.value == "") && p.text.None?
    ensures r.Err? ==> r.error == EmptyPostError
  {
    if !HasFile(ImageAttribute(p).value) && p.text.None? then Err(EmptyPostError) else Ok(())
  }

  // ---------------------------------------------------------------------
  // AppUserManager

  /** Optional `**other_fields` flags, None when not passed. */
  datatype ExtraFields = ExtraFields(isStaff: Option<bool>, isSuperuser: Option<bool>, isActive: Option<bool>)

  datatype Failure = ValueError(message: string) | IntegrityError

  predicate IsFalsyText(s: Option<string>) {
    s.None? || s.value == ""
  }

  function LastIndexOf(s: string, c: char): (i: nat)
    requires c in s
    ensures i < |s| && s[i] == c && c !in s[i + 1..]
  {
    if s[|s| - 1] == c then |s| - 1 else LastIndexOf(s[..|s| - 1], c)
  }

  lemma LastIndexOfUnique(s: string, c: char, j: nat)
    requires j < |s| && s[j] == c && c !in s[j + 1..]
    ensures LastIndexOf(s, c) == j
  {
  }

  /** `BaseUserManager.normalize_email`: the domain part after the last '@'
      is lower-cased. */
  function NormalizeEmail(email: string): (r: string)
    ensures |r| == |email|
    ensures '@' !in email ==> r == email
    ensures '@' in email ==> && r[..LastIndexOf(email, '@') + 1] == email[..LastIndexOf(email, '@') + 1]
                             && IsLower(r[LastIndexOf(email, '@') + 1..])
                             && forall k :: LastIndexOf(email, '@') < k < |email| ==> r[k] == LowerChar(email[k])
  {
    if '@' in email then
      var i := LastIndexOf(email, '@');
      email[..i + 1] + Lower(email[i + 1..])
    else email
  }

  lemma NormalizeEmailIdempotent(email: string)
    ensures NormalizeEmail(NormalizeEmail(email)) == NormalizeEmail(email)
  {
    if '@' in email {
      var i := LastIndexOf(email, '@');
      var n := NormalizeEmail(email);
      var tail := Lower(email[i + 1..]);
      assert n[i] == '@';
      assert n[i + 1..] == tail;
      assert '@' !in tail by {
        forall k | 0 <= k < |tail| ensures tail[k] != '@' {
          assert email[i + 1..][k] != '@';
        }
      }
      LastIndexOfUnique(n, '@', i);
      LowerIdempotent(email[i + 1..]);
      assert n[..i + 1] == email[..i + 1];
    }
  }

  function FlagOr(flag: Option<bool>, default: bool): bool {
    if flag.Some? then flag.value else default
  }

  const EmptyEmailError := "Email must not be empty."
  const EmptyPasswordError := "Password must not be empty"
  const StaffError := "is_staff field must set to True"
  const SuperuserError := "is_superuser must set to True"

  /** The checks and the instance `create_user` builds before its save; the
      flags left out default as in `AbstractUser`. */
  function NewUser(email: Option<string>, username: string, password: Option<string>, extra: ExtraFields): (r: Result<AppUser, Failure>)
    ensures IsFalsyText(email) ==> r == Err(ValueError(EmptyEmailError))
    ensures !IsFalsyText(email) && IsFalsyText(password) ==> r == Err(ValueError(EmptyPasswordError))
    ensures r.Ok? <==> !IsFalsyText(email) && !IsFalsyText(password)
    ensures r.Ok? ==> && r.value.email == NormalizeEmail(email.value)
                      && r.value.username == username
                      && r.value.password == password.value
                      && r.value.profileImage == DefaultProfileImagePath
                      && r.value.isStaff == FlagOr(extra.isStaff, false)
                      && r.value.isSuperuser == FlagOr(extra.isSuperuser, false)
                      && r.value.isActive == FlagOr(extra.isActive, true)
  {
    if IsFalsyText(email) then Err(ValueError(EmptyEmailError))
    else if IsFalsyText(password) then Err(ValueError(EmptyPasswordError))
    else Ok(AppUser(NormalizeEmail(email.value), username, password.value, DefaultProfileImagePath,
                    FlagOr(extra.isStaff, false), FlagOr(extra.isSuperuser, false), FlagOr(extra.isActive, true)))
  }

  /** `other_fields.setdefault(...)` for the three flags. */
  function SuperuserDefaults(extra: ExtraFields): ExtraFields {
    ExtraFields(Some(FlagOr(extra.isStaff, true)), Some(FlagOr(extra.isSuperuser, true)), Some(FlagOr(extra.isActive, true)))
  }

  /** `create_superuser` up to its save: flag checks, then `create_user` on
      the normalised email (`normalize_email(None)` is ""). */
  function NewSuperuser(email: Option<string>, username: string, password: Option<string>, extra: ExtraFields): (r: Result<AppUser, Failure>)
    ensures extra.isStaff == Some(false) ==> r == Err(ValueError(StaffError))
    ensures extra.isStaff != Some(false) && extra.isSuperuser == Some(false) ==> r == Err(ValueError(SuperuserError))
    ensures r.Ok? ==> r.value.isStaff && r.value.isSuperuser && r.value.username == username
    ensures r.Ok? ==> r.value.isActive == FlagOr(extra.isActive, true)
    ensures r.Ok? <==> extra.isStaff != Some(false) && extra.isSuperuser != Some(false)
                       && !IsFalsyText(email) && !IsFalsyText(password)
  {
    var fields := SuperuserDefaults(extra);
    if !fields.isStaff.value then Err(ValueError(StaffError))
    else if !fields.isSuperuser.value then Err(ValueError(SuperuserError))
    else
      var normalized := NormalizeEmail(if email.Some? then email.value else "");
      NewUser(Some(normalized), username, password, fields)
  }

  /** create_superuser stores the same email create_user would. */
  lemma SuperuserEmailNormalizedOnce(email: string, username: string, password: Option<string>, extra: ExtraFields)
    requires NewSuperuser(Some(email), username, password, extra).Ok?
    ensures NewSuperuser(Some(email), username, password, extra).value.email == NormalizeEmail(email)
  {
    NormalizeEmailIdempotent(email);
  }

  /** Some stored user already has u's email or username: the unique
      columns refuse u. */
  predicate Clashes(users: map<nat, AppUser>, u: AppUser) {
    exists p :: p in users && (users[p].email == u.email || users[p].username == u.username)
  }

  // ---------------------------------------------------------------------
  // The database.

  /** The tables the core reads and writes. `clock` is the logical time the
      next save will be stamped with; `nextPk` the next user key. */
  class Db {
    var users: map<nat, AppUser>
    var rels: map<Pair, UserRelationship>
    var posts: seq<Post>
    var messages: seq<Message>
    var clock: nat
    var nextPk: nat

    ghost predicate Valid()
      reads this
    {
      && UsersWellFormed(users)
      && nextPk >= 1
      && (forall pk :: pk in users ==> pk < nextPk)
      && RelationsWellFormed(users, rels)
      && RelationDatesWellFormed(rels, clock)
      && PostsWellFormed(users, posts)
      && MessagesWellFormed(users, messages, clock)
    }

    constructor ()
      ensures Valid()
      ensures users == map[] && rels == map[] && posts == [] && messages == []
    {
      users, rels, posts, messages := map[], map[], [], [];
      clock, nextPk := 0, 1;
    }

    /** Saving a new `UserRelationship` row. */
    method InsertRelationship(key: Pair, t: RelationType)
      requires Valid()
      requires key !in rels && key.0 < key.1 && key.0 in users && key.1 in users
      modifies this`rels, this`clock
      ensures Valid()
      ensures rels == old(rels)[key := UserRelationship(t, old(clock))]
      ensures clock == old(clock) + 1
    {
      rels := rels[key := UserRelationship(t, clock)];
      clock := clock + 1;
    }

    /** `relationship.delete()`. */
    method DeleteRelationship(key: Pair)
      requires Valid() && key in rels
      modifies this`rels
      ensures Valid()
      ensures rels == old(rels) - {key}
    {
      rels := rels - {key};
    }

    /** `UserRelationship.accept_friend_request`: the row keeps its users,
        becomes `friends` and is saved again. */
    method AcceptFriendRequest(key: Pair)
      requires Valid() && key in rels
      modifies this`rels, this`clock
      ensures Valid()
      ensures key in rels && rels[key] == UserRelationship(Friends, old(clock))
      ensures rels == old(rels)[key := UserRelationship(Friends, old(clock))]
      ensures clock == old(clock) + 1
    {
      rels := rels[key := UserRelationship(Friends, clock)];
      clock := clock + 1;
    }

    /** `Message.objects.create(...)`: the row is stamped and appended; a
        content wider than the column is refused by the database. */
    method CreateMessage(sender: nat, receiver: nat, content: string) returns (m: Option<Message>)
      requires Valid() && sender in users && receiver in users
      modifies this`messages, this`clock
      ensures Valid()
      ensures m.Some? <==> |content| <= MessageMaxLength
      ensures m.Some? ==> && m.value == Message(sender, receiver, content, old(clock))
                          && messages == old(messages) + [m.value]
                          && clock == old(clock) + 1
      ensures m.None? ==> messages == old(messages) && clock == old(clock)
    {
      if |content| <= MessageMaxLength {
        var msg := Message(sender, receiver, content, clock);
        messages := messages + [msg];
        clock := clock + 1;
        m := Some(msg);
      } else {
        m := None;
      }
    }

    /** Saving a new user row: the unique columns are checked by the
        database. */
    method SaveNewUser(u: AppUser) returns (r: Result<nat, Failure>)
      requires Valid()
      modifies this`users, this`nextPk
      ensures Valid()
      ensures r.Err? <==> Clashes(old(users), u)
      ensures r.Err? ==> r.error == IntegrityError && users == old(users) && nextPk == old(nextPk)
      ensures r.Ok? ==> && r.value == old(nextPk) && r.value !in old(users)
                        && users == old(users)[r.value := u] && nextPk == old(nextPk) + 1
    {
      if Clashes(users, u) {
        r := Err(IntegrityError);
      } else {
        users := users[nextPk := u];
        r := Ok(nextPk);
        nextPk := nextPk + 1;
      }
    }

    /** `AppUserManager.create_user`. */
    method CreateUser(email: Option<string>, username: string, password: Option<string>, extra: ExtraFields)
      returns (r: Result<nat, Failure>)
      requires Valid()
      modifies this`users, this`nextPk
      ensures Valid()
      ensures NewUser(email, username, password, extra).Err? ==>
                r == Err(NewUser(email, username, password, extra).error) && users == old(users)
      ensures NewUser(email, username, password, extra).Ok? ==>
                && (r.Err? <==> Clashes(old(users), NewUser(email, username, password, extra).value))
                && (r.Err? ==> r.error == IntegrityError)
      ensures r.Err? ==> users == old(users)
      ensures r.Ok? ==> && NewUser(email, username, password, extra).Ok?
                        && r.value !in old(users)
                        && users == old(users)[r.value := NewUser(email, username, password, extra).value]
    {
      var built := NewUser(email, username, password, extra);
      if built.Err? {
        r := Err(built.error);
      } else {
        r := SaveNewUser(built.value);
      }
    }

    /** `AppUserManager.create_superuser`. */
    method CreateSuperuser(email: Option<string>, username: string, password: Option<string>, extra: ExtraFields)
      returns (r: Result<nat, Failure>)
      requires Valid()
      modifies this`users, this`nextPk
      ensures Valid()
      ensures NewSuperuser(email, username, password, extra).Err? ==>
                r == Err(NewSuperuser(email, username, password, extra).error) && users == old(users)
      ensures NewSuperuser(email, username, password, extra).Ok? ==>
                && (r.Err? <==> Clashes(old(users), NewSuperuser(email, username, password, extra).value))
                && (r.Err? ==> r.error == IntegrityError)
      ensures r.Err? ==> users == old(users)
      ensures r.Ok? ==> && NewSuperuser(email, username, password, extra).Ok?
                        && r.value !in old(users)
                        && users == old(users)[r.value := NewSuperuser(email, username, password, extra).value]
                        && users[r.value].isStaff && users[r.value].isSuperuser
    {
      var built := NewSuperuser(email, username, password, extra);
      if built.Err? {
        r := Err(built.error);
      } else {
        r := SaveNewUser(built.value);
      }
    }
  }
}
