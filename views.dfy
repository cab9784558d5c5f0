/** The page views of social_media/views.py that compute something: the home
    feed, the profile page's relation label, the user search with its
    pagination, and the two list pages. */
module Views {
  import opened Results
  import opened Text
  import opened Collections
  import opened Models
  import opened Apis

  // ---------------------------------------------------------------------
  // index: the home feed.

  /** One element of the feed's `post_list`. */
  datatype FeedEntry = FeedEntry(
    ownerUsername: string,
    ownerProfileImage: string,
    text: Option<string>,
    image: Option<string>,
    dateCreated: nat)

  /** A post as the feed shows it; a post without an image file has no image
      path. */
  function EntryOf(users: map<nat, AppUser>, p: Post): (e: FeedEntry)
    requires p.owner in users
    ensures e.ownerUsername == users[p.owner].username && e.ownerProfileImage == users[p.owner].profileImage
    ensures e.text == p.text && e.dateCreated == p.dateCreated
    ensures e.image.None? <==> p.image.None? || p.image.value == ""
    ensures e.image.Some? ==> e.image == p.image
  {
    FeedEntry(users[p.owner].username, users[p.owner].profileImage, p.text,
              if p.image.None? || p.image.value == "" then None else p.image, p.dateCreated)
  }

  /** The feed shows the viewer's own posts and their friends'. */
  predicate InFeedOf(rels: map<Pair, UserRelationship>, me: nat, p: Post) {
    p.owner == me || AreFriends(rels, me, p.owner)
  }

  /** The posts of the feed, newest first. */
  function FeedPosts(rels: map<Pair, UserRelationship>, posts: seq<Post>, me: nat): (r: seq<Post>)
    ensures forall p :: p in r <==> p in posts && InFeedOf(rels, me, p)
    ensures forall p :: multiset(r)[p] == (if InFeedOf(rels, me, p) then multiset(posts)[p] else 0)
    ensures SortedBy(r, NewestFirst)
  {
    var shown := (p: Post) => InFeedOf(rels, me, p);
    var mine := Filter(posts, shown);
    forall p ensures multiset(mine)[p] == (if InFeedOf(rels, me, p) then multiset(posts)[p] else 0) {
      FilterMultiset(posts, shown, p);
    }
    var r := SortBy(mine, NewestFirst);
    assert forall p :: p in r <==> p in multiset(r);
    r
  }

  /** `post_users`: the viewer and the users on the other side of their
      `friends` rows. */
  method FeedUsers(users: map<nat, AppUser>, rels: map<Pair, UserRelationship>, me: nat) returns (postUsers: set<nat>)
    requires RelationsWellFormed(users, rels)
    ensures forall pk :: pk in users ==> (pk in postUsers <==> pk == me || AreFriends(rels, me, pk))
  {
    var rows := Enumerate(rels.Keys);
    var friends := CollectFriends(users, rels, me, rows);
    postUsers := {me} + set c | c in friends :: c.id;
    forall pk | pk in users ensures pk in postUsers <==> pk == me || AreFriends(rels, me, pk) {
      if pk in postUsers && pk != me {
        var c :| c in friends && c.id == pk;
        var j :| 0 <= j < |friends| && friends[j] == c;
      }
      if AreFriends(rels, me, pk) {
        assert CardOf(users, pk) in friends;
      }
    }
  }

  /** `Post.objects.filter(owner__in=post_users).order_by('-date_created')`. */
  function PostsOf(posts: seq<Post>, postUsers: set<nat>): (r: seq<Post>)
    ensures forall p :: p in r <==> p in posts && p.owner in postUsers
    ensures SortedBy(r, NewestFirst)
  {
    var mine := Filter(posts, (p: Post) => p.owner in postUsers);
    var r := SortBy(mine, NewestFirst);
    assert forall p :: p in r <==> p in multiset(r);
    assert forall p :: p in mine <==> p in multiset(mine);
    r
  }

  /** Selecting by `post_users` is selecting the feed. */
  lemma PostsOfFeedUsers(users: map<nat, AppUser>, rels: map<Pair, UserRelationship>, posts: seq<Post>, me: nat, postUsers: set<nat>)
    requires PostsWellFormed(users, posts)
    requires forall pk :: pk in users ==> (pk in postUsers <==> pk == me || AreFriends(rels, me, pk))
    ensures PostsOf(posts, postUsers) == FeedPosts(rels, posts, me)
  {
    forall p | p in posts ensures (p.owner in postUsers) == InFeedOf(rels, me, p) {
      var k :| 0 <= k < |posts| && posts[k] == p;
      assert p.owner in users;
    }
    FilterCongruent(posts, (p: Post) => p.owner in postUsers, (p: Post) => InFeedOf(rels, me, p));
  }

  /** The work of `index` on the tables. */
  method Feed(users: map<nat, AppUser>, rels: map<Pair, UserRelationship>, posts: seq<Post>, me: nat)
    returns (feed: seq<FeedEntry>)
    requires RelationsWellFormed(users, rels) && PostsWellFormed(users, posts)
    ensures |feed| == |FeedPosts(rels, posts, me)|
    ensures forall i :: 0 <= i < |feed| ==> FeedPosts(rels, posts, me)[i].owner in users
    ensures forall i :: 0 <= i < |feed| ==> feed[i] == EntryOf(users, FeedPosts(rels, posts, me)[i])
  {
    var postUsers := FeedUsers(users, rels, me);
    var shown := PostsOf(posts, postUsers);
    PostsOfFeedUsers(users, rels, posts, me, postUsers);
    feed := [];
    for i := 0 to |shown|
      invariant |feed| == i
      invariant forall k :: 0 <= k < i ==> shown[k].owner in users && feed[k] == EntryOf(users, shown[k])
    {
      assert shown[i] in posts;
      var k :| 0 <= k < |posts| && posts[k] == shown[i];
      feed := feed + [EntryOf(users, shown[i])];
    }
  }

  /** `index`: the viewer and their friends are collected from the
      `friends` rows, their posts are fetched newest first, and each becomes
      an entry. */
  method Index(db: Db, me: nat) returns (feed: seq<FeedEntry>)
    requires db.Valid() && me in db.users
    ensures |feed| == |FeedPosts(db.rels, db.posts, me)|
    ensures forall i :: 0 <= i < |feed| ==> FeedPosts(db.rels, db.posts, me)[i].owner in db.users
    ensures forall i :: 0 <= i < |feed| ==> feed[i] == EntryOf(db.users, FeedPosts(db.rels, db.posts, me)[i])
  {
    feed := Feed(db.users, db.rels, db.posts, me);
  }

  // ---------------------------------------------------------------------
  // profile: the relation label.

  datatype RelationLabel = SenderLabel | ReceiverLabel | FriendsLabel | NotFriend

  /** The `relation_type` of the profile page: the viewer's side of the row
      with the profile's owner, looked up by the ordered pair. */
  function RelationLabelOf(rels: map<Pair, UserRelationship>, me: nat, them: nat): (r: RelationLabel)
    ensures r == NotFriend <==> Canonical(me, them) !in rels
    ensures r == FriendsLabel ==> Canonical(me, them) in rels && rels[Canonical(me, them)].relationType == Friends
  {
    var key := if me < them then (me, them) else (them, me);
    if key !in rels then NotFriend
    else if rels[key].relationType == Friends then FriendsLabel
    else if me < them then (if rels[key].relationType == PendingUser1User2 then SenderLabel else ReceiverLabel)
    else (if rels[key].relationType == PendingUser2User1 then SenderLabel else ReceiverLabel)
  }

  /** The label says exactly what the relationship handlers act on: the
      viewer sent the pending request, received it, is a friend, or there is
      no row (which is also the case on one's own profile). */
  lemma RelationLabelMeaning(users: map<nat, AppUser>, rels: map<Pair, UserRelationship>, me: nat, them: nat)
    requires RelationsWellFormed(users, rels)
    ensures RelationLabelOf(rels, me, them) == SenderLabel <==> HasPendingRequest(rels, me, them)
    ensures RelationLabelOf(rels, me, them) == ReceiverLabel <==> HasPendingRequest(rels, them, me)
    ensures RelationLabelOf(rels, me, them) == FriendsLabel <==> AreFriends(rels, me, them)
    ensures RelationLabelOf(rels, me, them) == NotFriend <==> Canonical(me, them) !in rels
    ensures me == them ==> RelationLabelOf(rels, me, them) == NotFriend
  {
    CanonicalSymmetric(me, them);
  }

  /** The context of the profile page. `relation` and `isFriend` are absent
      for a visitor who is not logged in. */
  datatype ProfileContext = ProfileContext(
    id: nat,
    username: string,
    email: string,
    profileImage: string,
    isOwnProfile: bool,
    isAuthenticated: bool,
    relation: Option<RelationLabel>,
    isFriend: Option<bool>)

  /** `profile`: Err is `Http404` for an unknown username; `viewer` is the
      logged-in user, None for an anonymous visitor. */
  function Profile(users: map<nat, AppUser>, rels: map<Pair, UserRelationship>, username: string, viewer: Option<nat>): (r: Result<ProfileContext, ()>)
    requires UsersWellFormed(users) && RelationsWellFormed(users, rels)
    ensures r.Err? <==> UserWithUsername(users, username).None?
    ensures r.Ok? ==> var pk := r.value.id;
              && pk in users && users[pk].username == username
              && r.value.email == users[pk].email && r.value.profileImage == users[pk].profileImage
              && r.value.isAuthenticated == viewer.Some?
              && r.value.isOwnProfile == (viewer == Some(pk))
              && (viewer.None? ==> r.value.relation.None? && r.value.isFriend.None?)
              && (viewer.Some? ==> && r.value.relation == Some(RelationLabelOf(rels, viewer.value, pk))
                                   && r.value.isFriend == Some(AreFriends(rels, viewer.value, pk)))
  {
    match UserWithUsername(users, username)
    case None => Err(())
    case Some(pk) =>
      var u := users[pk];
      if viewer.None? then Ok(ProfileContext(pk, u.username, u.email, u.profileImage, false, false, None, None))
      else
        var me := viewer.value;
        var relation := RelationLabelOf(rels, me, pk);
        RelationLabelMeaning(users, rels, me, pk);
        Ok(ProfileContext(pk, u.username, u.email, u.profileImage, me == pk, true, Some(relation), Some(relation == FriendsLabel)))
  }

  // ---------------------------------------------------------------------
  // search_user: pagination.

  /** `Paginator(results, 5)`. */
  const PerPage: nat := 5

  /** `Paginator.num_pages`: there is always a first page, possibly empty. */
  function NumPages(count: nat): (n: nat)
    ensures n >= 1
    ensures count <= n * PerPage
    ensures count > 0 ==> (n - 1) * PerPage < count
    ensures count == 0 ==> n == 1
  {
    if count == 0 then 1 else (count - 1) / PerPage + 1
  }

  datatype PageError = PageNotAnInteger | EmptyPage

  /** `Paginator.validate_number`; `page` is the query parameter, absent
      meaning the default 1. */
  function ValidateNumber(count: nat, page: Option<string>): (r: Result<nat, PageError>)
    ensures r.Ok? ==> 1 <= r.value <= NumPages(count)
    ensures r == Err(PageNotAnInteger) <==> page.Some? && ParseInt(page.value).None?
    ensures page.Some? && ParseInt(page.value).Some? && 1 <= ParseInt(page.value).value <= NumPages(count)
            ==> r == Ok(ParseInt(page.value).value as nat)
    ensures r == Err(EmptyPage) <==> page.Some? && ParseInt(page.value).Some? && !(1 <= ParseInt(page.value).value <= NumPages(count))
    ensures page.None? ==> r == Ok(1)
  {
    var number := if page.None? then Some(1) else ParseInt(page.value);
    match number
    case None => Err(PageNotAnInteger)
    case Some(n) =>
      if n < 1 || n > NumPages(count) then Err(EmptyPage) else Ok(n as nat)
  }

  /** The `try`/`except` around `paginator.page`: a page that is not a
      number shows page 1, one out of range shows the last page. */
  function ResolvePage(count: nat, page: Option<string>): (p: nat)
    ensures 1 <= p <= NumPages(count)
    ensures page.None? ==> p == 1
    ensures page.Some? && ParseInt(page.value).None? ==> p == 1
    ensures page.Some? && ParseInt(page.value).Some? && 1 <= ParseInt(page.value).value <= NumPages(count)
            ==> p == ParseInt(page.value).value
    ensures page.Some? && ParseInt(page.value).Some? && !(1 <= ParseInt(page.value).value <= NumPages(count))
            ==> p == NumPages(count)
  {
    match ValidateNumber(count, page)
    case Ok(n) => n
    case Err(PageNotAnInteger) => 1
    case Err(EmptyPage) => NumPages(count)
  }

  /** The first index of page p. */
  function PageStart(p: nat): nat
    requires p >= 1
  {
    (p - 1) * PerPage
  }

  lemma PageStartMonotone(p: nat, q: nat)
    requires 1 <= p <= q
    ensures PageStart(p) <= PageStart(q)
    ensures PageStart(p + 1) == PageStart(p) + PerPage
  {
  }

  /** `paginator.page(p).object_list`. */
  function Page<T>(items: seq<T>, p: nat): (r: seq<T>)
    requires 1 <= p <= NumPages(|items|)
    ensures p < NumPages(|items|) ==> |r| == PerPage
    ensures p == NumPages(|items|) ==> (|items| > 0 ==> 1 <= |r|) && |r| <= PerPage
    ensures PageStart(p) + |r| <= |items|
    ensures r == items[PageStart(p)..PageStart(p) + |r|]
  {
    var n := NumPages(|items|);
    PageStartMonotone(p, n);
    assert PageStart(n) <= |items|;
    var bottom := PageStart(p);
    var top := if bottom + PerPage >= |items| then |items| else bottom + PerPage;
    if p < n then
      PageStartMonotone(p + 1, n);
      items[bottom..top]
    else items[bottom..top]
  }

  /** Pages p, p+1, .., the last one, laid end to end. */
  function PagesFrom<T>(items: seq<T>, p: nat): seq<T>
    requires 1 <= p
    decreases NumPages(|items|) + 1 - p
  {
    if p > NumPages(|items|) then [] else Page(items, p) + PagesFrom(items, p + 1)
  }

  lemma {:induction false} PagesFromSuffix<T>(items: seq<T>, p: nat)
    requires 1 <= p <= NumPages(|items|)
    ensures PagesFrom(items, p) == items[PageStart(p)..]
    decreases NumPages(|items|) + 1 - p
  {
    var page := Page(items, p);
    if p < NumPages(|items|) {
      PagesFromSuffix(items, p + 1);
      PageStartMonotone(p, p);
      assert items[PageStart(p)..] == page + items[PageStart(p + 1)..];
    } else {
      assert PageStart(p) + |page| == |items|;
    }
  }

  /** The pages partition the results: read in order they are the results. */
  lemma PagesPartition<T>(items: seq<T>)
    ensures PagesFrom(items, 1) == items
  {
    PagesFromSuffix(items, 1);
  }

  // ---------------------------------------------------------------------
  // search_user: the query.

  /** `email__icontains=q | username__icontains=q`, the viewer excluded. */
  predicate Matches(users: map<nat, AppUser>, me: nat, q: string, pk: nat)
    requires pk in users
    ensures Matches(users, me, q, pk) ==> pk != me
    ensures pk != me && (q == [] || q == users[pk].username || q == users[pk].email) ==> Matches(users, me, q, pk)
  {
    ContainsSelf(Lower(users[pk].username));
    ContainsSelf(Lower(users[pk].email));

    pk != me && (IContains(users[pk].email, q) || IContains(users[pk].username, q))
  }

  /** The full result list of a search: the matching users' cards, each once,
      ordered by username. */
  ghost predicate SearchResults(users: map<nat, AppUser>, me: nat, q: string, cards: seq<UserCard>) {
    && CardsOfUsers(users, cards) && DistinctIds(cards)
    && SortedBy(cards, ByUsername)
    && forall pk :: pk in users ==> (CardOf(users, pk) in cards <==> Matches(users, me, q, pk))
  }

  /** The context of the search page. */
  datatype SearchPage = SearchPage(query: string, results: seq<UserCard>, number: nat, numPages: nat, items: seq<UserCard>)

  /** The cards of the users in pks that keep selects. */
  method CollectCards(users: map<nat, AppUser>, pks: seq<nat>, keep: nat -> bool) returns (found: seq<UserCard>)
    requires NoDuplicates(pks) && forall pk :: pk in pks <==> pk in users
    ensures CardsOfUsers(users, found) && DistinctIds(found)
    ensures forall pk :: pk in users ==> (CardOf(users, pk) in found <==> keep(pk))
  {
    found := [];
    for i := 0 to |pks|
      invariant CardsOfUsers(users, found) && DistinctIds(found)
      invariant forall k :: 0 <= k < |found| ==> keep(found[k].id) && found[k].id in pks[..i]
      invariant forall j :: 0 <= j < i && keep(pks[j]) ==> CardOf(users, pks[j]) in found
    {
      var pk := pks[i];
      if keep(pk) {
        assert pk !in pks[..i];
        found := found + [CardOf(users, pk)];
      }
    }
    assert pks[..|pks|] == pks;
  }

  /** The users matching q, ordered by username. */
  method MatchingUsers(users: map<nat, AppUser>, me: nat, q: string) returns (results: seq<UserCard>)
    ensures SearchResults(users, me, q, results)
  {
    var pks := Enumerate(users.Keys);
    var found := CollectCards(users, pks, (pk: nat) => pk in users && Matches(users, me, q, pk));
    ByUsernameTotalPreorder();
    results := SortBy(found, ByUsername);
    PermutedCards(users, found, results);
  }

  /** `search_user`: Err is `Http404` for a missing or empty query. */
  method SearchUser(db: Db, me: nat, query: Option<string>, page: Option<string>) returns (r: Result<SearchPage, ()>)
    requires db.Valid() && me in db.users
    ensures r.Err? <==> IsFalsyText(query)
    ensures r.Ok? ==> && r.value.query == query.value
                      && SearchResults(db.users, me, query.value, r.value.results)
                      && r.value.numPages == NumPages(|r.value.results|)
                      && r.value.number == ResolvePage(|r.value.results|, page)
                      && r.value.items == Page(r.value.results, r.value.number)
  {
    if IsFalsyText(query) {
      return Err(());
    }
    var results := MatchingUsers(db.users, me, query.value);
    var number := ResolvePage(|results|, page);
    r := Ok(SearchPage(query.value, results, number, NumPages(|results|), Page(results, number)));
  }

  /** Usernames are unique, so the ordered result list of a search is
      determined: however the rows come from the database, the same pages
      are shown. */
  lemma SearchResultsUnique(users: map<nat, AppUser>, me: nat, q: string, a: seq<UserCard>, b: seq<UserCard>)
    requires UsersWellFormed(users)
    requires SearchResults(users, me, q, a) && SearchResults(users, me, q, b)
    ensures a == b
  {
    assert NoDuplicates(a) && NoDuplicates(b);
    assert forall c :: c in a <==> c in b by {
      forall c ensures c in a <==> c in b {
        if c in a {
          var i :| 0 <= i < |a| && a[i] == c;
          assert CardOf(users, c.id) in b;
        }
        if c in b {
          var i :| 0 <= i < |b| && b[i] == c;
          assert CardOf(users, c.id) in a;
        }
      }
    }
    SameElementsNoDuplicates(a, b);
    ByUsernameTotalPreorder();
    forall x, y | x in a && y in a && ByUsername(x, y) && ByUsername(y, x) ensures x == y {
      StrLeAntisymmetric(x.username, y.username);
      var i :| 0 <= i < |a| && a[i] == x;
      var j :| 0 <= j < |a| && a[j] == y;
    }
    SortedPermutationsEqual(a, b, ByUsername);
  }

  // ---------------------------------------------------------------------
  // friend_list and friend_requests_list.

  /** The context of the friend list page. */
  datatype FriendListPage = FriendListPage(friends: seq<UserCard>, isOwn: bool, requestedUsername: string)

  /** `friend_list`: the same list as the friend list endpoint, and whether
      it is the viewer's own. */
  method FriendListView(db: Db, me: nat, username: string) returns (r: Result<FriendListPage, ()>)
    requires db.Valid() && me in db.users
    ensures r.Err? <==> UserWithUsername(db.users, username).None?
    ensures r.Ok? ==>
              var u := UserWithUsername(db.users, username).value;
              && FriendsOf(db.users, db.rels, u, r.value.friends)
              && CardsOfUsers(db.users, r.value.friends) && DistinctIds(r.value.friends)
              && SortedBy(r.value.friends, ByUsername)
              && r.value.isOwn == (me == u)
              && r.value.requestedUsername == username
  {
    var friends := FriendList(db, username);
    if friends.Err? {
      return Err(());
    }
    var u := UserWithUsername(db.users, username).value;
    r := Ok(FriendListPage(friends.value, me == u, db.users[u].username));
  }

  /** A pending request to the viewer, with its row's modification time. */
  datatype Incoming = Incoming(sender: nat, dateModified: nat)

  /** `order_by('-date_modified')`. */
  predicate NewerFirst(a: Incoming, b: Incoming) {
    a.dateModified >= b.dateModified
  }

  /** The modification time of the row between me and them. */
  function RowDate(rels: map<Pair, UserRelationship>, me: nat, them: nat): nat
    requires Canonical(me, them) in rels
  {
    rels[Canonical(me, them)].dateModified
  }

  /** The cards are ordered by the time of their request, newest first. */
  ghost predicate NewestRequestFirst(rels: map<Pair, UserRelationship>, me: nat, cards: seq<UserCard>) {
    forall i, j :: 0 <= i < j < |cards| && Canonical(me, cards[i].id) in rels && Canonical(me, cards[j].id) in rels
      ==> RowDate(rels, me, cards[i].id) > RowDate(rels, me, cards[j].id)
  }

  /** The incoming requests gathered from the rows, each with its row's time. */
  method CollectIncoming(users: map<nat, AppUser>, rels: map<Pair, UserRelationship>, me: nat, rows: seq<Pair>)
    returns (incoming: seq<Incoming>)
    requires RelationsWellFormed(users, rels)
    requires NoDuplicates(rows) && forall k :: k in rows <==> k in rels
    ensures NoDuplicates(incoming)
    ensures forall x :: x in incoming ==> HasPendingRequest(rels, x.sender, me) && x.sender in users
                                          && x.dateModified == RowDate(rels, me, x.sender)
    ensures forall pk :: HasPendingRequest(rels, pk, me) ==> Incoming(pk, RowDate(rels, me, pk)) in incoming
  {
    incoming := [];
    for i := 0 to |rows|
      invariant NoDuplicates(incoming)
      invariant forall k :: 0 <= k < |incoming| ==>
                  && HasPendingRequest(rels, incoming[k].sender, me) && incoming[k].sender in users
                  && incoming[k].dateModified == RowDate(rels, me, incoming[k].sender)
                  && Canonical(me, incoming[k].sender) in rows[..i]
      invariant forall j :: 0 <= j < i && (rows[j].0 == me || rows[j].1 == me) && HasPendingRequest(rels, Other(rows[j], me), me)
                  ==> Incoming(Other(rows[j], me), RowDate(rels, me, Other(rows[j], me))) in incoming
    {
      var key := rows[i];
      if (key.0 == me && rels[key].relationType == PendingUser2User1) || (key.1 == me && rels[key].relationType == PendingUser1User2) {
        var v := Other(key, me);
        assert key == Canonical(me, v) == Canonical(v, me);
        assert key !in rows[..i];
        incoming := incoming + [Incoming(v, RowDate(rels, me, v))];
      }
    }
    assert rows[..|rows|] == rows;
    forall pk | HasPendingRequest(rels, pk, me) ensures Incoming(pk, RowDate(rels, me, pk)) in incoming {
      CanonicalSymmetric(me, pk);
      var key := Canonical(me, pk);
      var j :| 0 <= j < |rows| && rows[j] == key;
      assert Other(key, me) == pk;
    }
  }

  /** The work of `friend_requests_list` on the tables. */
  method IncomingRequests(users: map<nat, AppUser>, rels: map<Pair, UserRelationship>, me: nat)
    returns (requests: seq<UserCard>)
    requires RelationsWellFormed(users, rels)
    requires forall k, l :: k in rels && l in rels && k != l ==> rels[k].dateModified != rels[l].dateModified
    ensures CardsOfUsers(users, requests) && DistinctIds(requests)
    ensures forall pk :: pk in users ==> (CardOf(users, pk) in requests <==> HasPendingRequest(rels, pk, me))
    ensures NewestRequestFirst(rels, me, requests)
  {
    var rows := Enumerate(rels.Keys);
    var incoming := CollectIncoming(users, rels, me, rows);
    var ordered := SortBy(incoming, NewerFirst);
    assert forall x :: x in ordered <==> x in incoming by {
      forall x ensures x in ordered <==> x in incoming {
        assert x in ordered <==> x in multiset(ordered);
        assert x in incoming <==> x in multiset(incoming);
      }
    }
    NoDuplicatesPermutation(incoming, ordered);
    requests := [];
    for i := 0 to |ordered|
      invariant |requests| == i
      invariant forall k :: 0 <= k < i ==> ordered[k].sender in users && requests[k] == CardOf(users, ordered[k].sender)
    {
      assert ordered[i] in incoming;
      requests := requests + [CardOf(users, ordered[i].sender)];
    }
    OrderedRequestsProperties(users, rels, me, ordered, requests);
  }

  /** `friend_requests_list`: the users with a pending request to the viewer,
      newest request first. */
  method FriendRequestsList(db: Db, me: nat) returns (requests: seq<UserCard>)
    requires db.Valid() && me in db.users
    ensures CardsOfUsers(db.users, requests) && DistinctIds(requests)
    ensures forall pk :: pk in db.users ==> (CardOf(db.users, pk) in requests <==> HasPendingRequest(db.rels, pk, me))
    ensures NewestRequestFirst(db.rels, me, requests)
  {
    requests := IncomingRequests(db.users, db.rels, me);
  }

  lemma OrderedRequestsProperties(users: map<nat, AppUser>, rels: map<Pair, UserRelationship>, me: nat,
                                  ordered: seq<Incoming>, requests: seq<UserCard>)
    requires NoDuplicates(ordered) && SortedBy(ordered, NewerFirst)
    requires forall x :: x in ordered ==>
               HasPendingRequest(rels, x.sender, me) && x.sender in users && x.dateModified == RowDate(rels, me, x.sender)
    requires forall pk :: HasPendingRequest(rels, pk, me) ==> Incoming(pk, RowDate(rels, me, pk)) in ordered
    requires forall k, l :: k in rels && l in rels && k != l ==> rels[k].dateModified != rels[l].dateModified
    requires |requests| == |ordered|
    requires forall k :: 0 <= k < |ordered| ==> ordered[k].sender in users && requests[k] == CardOf(users, ordered[k].sender)
    ensures CardsOfUsers(users, requests) && DistinctIds(requests)
    ensures forall pk :: pk in users ==> (CardOf(users, pk) in requests <==> HasPendingRequest(rels, pk, me))
    ensures NewestRequestFirst(rels, me, requests)
  {
    forall i, j | 0 <= i < j < |requests| ensures requests[i].id != requests[j].id {
      assert ordered[i] in ordered && ordered[j] in ordered;
    }
    forall i, j | 0 <= i < j < |requests| ensures RowDate(rels, me, requests[i].id) > RowDate(rels, me, requests[j].id) {
      assert ordered[i] in ordered && ordered[j] in ordered;
      assert NewerFirst(ordered[i], ordered[j]);
      CanonicalSymmetric(me, ordered[i].sender);
      CanonicalSymmetric(me, ordered[j].sender);
      assert Canonical(me, ordered[i].sender) != Canonical(me, ordered[j].sender);
    }
    forall pk | pk in users ensures CardOf(users, pk) in requests <==> HasPendingRequest(rels, pk, me) {
      if CardOf(users, pk) in requests {
        var k :| 0 <= k < |requests| && requests[k] == CardOf(users, pk);
        assert ordered[k] in ordered;
      }
      if HasPendingRequest(rels, pk, me) {
        var k :| 0 <= k < |ordered| && ordered[k] == Incoming(pk, RowDate(rels, me, pk));
        assert requests[k] == CardOf(users, pk);
      }
    }
  }
}
