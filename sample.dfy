/** The example application of examples/sample.go: users and posts kept in
    memory, served by CRUD handlers. The handlers read the route parameter
    "id", answer through c.JSON (modelled as the status and content type it
    writes) and change the lists in place. A request body that JSON decodes
    is an `Option` argument: None when decoding fails. */
module Sample {
  import opened Strings
  import opened Handlers

  const StatusCreated := 201
  const StatusBadRequest := 400
  const StatusNotFound := 404
  const JsonType := "application/json"

  const MaxInt64 := 0x7fff_ffff_ffff_ffff
  const MinInt64 := -0x8000_0000_0000_0000

  datatype User = User(name: string, email: string)
  datatype Post = Post(id: int, title: string, content: string)

  // ------------------------------------------------- strconv.Atoi / %d

  predicate IsDigit(c: char) { '0' <= c <= '9' }

  predicate AllDigits(s: string)
  {
    forall i | 0 <= i < |s| :: IsDigit(s[i])
  }

  /** The value of a string of decimal digits. */
  function DigitsValue(s: string): (n: nat)
    requires AllDigits(s)
  {
    if s == [] then 0 else DigitsValue(s[..|s| - 1]) * 10 + (s[|s| - 1] as int - '0' as int)
  }

  /** strconv.Atoi: an optional sign and at least one decimal digit, within
      the range of a 64-bit int; None for any other input. */
  function Atoi(s: string): (r: Option<int>)
    ensures r.Some? ==> MinInt64 <= r.value <= MaxInt64
    ensures r.Some? && r.value < 0 ==> s != [] && s[0] == '-'
    ensures s == [] ==> r.None?
  {
    if s == [] then None
    else
      var negative := s[0] == '-';
      var digits := if s[0] == '-' || s[0] == '+' then s[1..] else s;
      if digits == [] || !AllDigits(digits) then None
      else
        var magnitude: int := DigitsValue(digits);
        var v := if negative then 0 - magnitude else magnitude;
        if MinInt64 <= v <= MaxInt64 then Some(v) else None
  }

  /** The decimal digits of `n`, without leading zeros. */
  function Digits(n: nat): (s: string)
    ensures |s| >= 1 && AllDigits(s)
  {
    if n < 10 then [('0' as int + n) as char] else Digits(n / 10) + [('0' as int + n % 10) as char]
  }

  /** fmt.Sprintf("%d", n). */
  function Itoa(n: int): (s: string)
    ensures |s| >= 1 && (s[0] == '-' <==> n < 0)
  {
    if n < 0 then "-" + Digits(-n) else Digits(n)
  }

  lemma {:induction false} DigitsValueOf(n: nat)
    ensures DigitsValue(Digits(n)) == n
  {
    if n >= 10 {
      var s := Digits(n);
      assert s[..|s| - 1] == Digits(n / 10);
      DigitsValueOf(n / 10);
    }
  }

  /** Reading back a printed 64-bit integer gives the integer. */
  lemma AtoiItoa(n: int)
    requires MinInt64 <= n <= MaxInt64
    ensures Atoi(Itoa(n)) == Some(n)
  {
    if n < 0 {
      var d := Digits(-n);
      DigitsValueOf(-n);
      assert IsDigit(d[0]);
      var s := "-" + d;
      assert s[0] == '-' && s[1..] == d;
      assert Itoa(n) == s;
    } else {
      var d := Digits(n);
      DigitsValueOf(n);
      assert IsDigit(d[0]) && d[0] != '-' && d[0] != '+';
    }
  }

  // ------------------------------------------------------------- search

  /** The first user whose e-mail is `id`: the e-mail is the user's ID. */
  function FirstUser(users: seq<User>, id: string): (r: Option<nat>)
    ensures r.Some? ==> r.value < |users| && users[r.value].email == id
    ensures r.Some? ==> forall j | 0 <= j < r.value :: users[j].email != id
    ensures r.None? ==> forall j | 0 <= j < |users| :: users[j].email != id
  {
    if users == [] then None
    else if users[0].email == id then Some(0)
    else match FirstUser(users[1..], id)
      case None => None
      case Some(k) => Some(k + 1)
  }

  /** The first post with ID `id`. */
  function FirstPost(posts: seq<Post>, id: int): (r: Option<nat>)
    ensures r.Some? ==> r.value < |posts| && posts[r.value].id == id
    ensures r.Some? ==> forall j | 0 <= j < r.value :: posts[j].id != id
    ensures r.None? ==> forall j | 0 <= j < |posts| :: posts[j].id != id
  {
    if posts == [] then None
    else if posts[0].id == id then Some(0)
    else match FirstPost(posts[1..], id)
      case None => None
      case Some(k) => Some(k + 1)
  }

  /** append(s[:i], s[i+1:]...). */
  function RemoveAt<T>(s: seq<T>, i: nat): (r: seq<T>)
    requires i < |s|
    ensures |r| == |s| - 1 && multiset(r) == multiset(s) - multiset{s[i]}
  {
    assert s == s[..i] + [s[i]] + s[i + 1..];
    s[..i] + s[i + 1..]
  }

  /** Post IDs strictly increase along the list, and none is above the last
      ID handed out. */
  predicate PostsOrdered(posts: seq<Post>, lastPostId: int)
  {
    && (forall i, j | 0 <= i < j < |posts| :: posts[i].id < posts[j].id)
    && (forall i | 0 <= i < |posts| :: 0 < posts[i].id <= lastPostId)
  }

  /** c.JSON(code, ...): the content type, then the status. */
  function Json(s: Ctx, code: int): (r: Ctx)
    requires Live(s)
    ensures Live(r) && r.statusCode == code && r.writer.value.written == s.writer.value.written + [code]
    ensures r.writer.value.header == s.writer.value.header["Content-Type" := JsonType]
    ensures r.index == s.index && r.trace == s.trace && r.keys == s.keys && r.params == s.params
  {
    RunStep(s, Reply(code, JsonType))
  }

  /** The user main appends at start-up. */
  const SampleUser := User("John Doe", "john.doe@gmail.com")

  // -------------------------------------------------------------- store

  /** The package variables UserList, PostList, lastPostID and getCount. */
  class Store {
    var users: seq<User>
    var posts: seq<Post>
    var lastPostId: int
    var getCount: int

    predicate Valid()
      reads this
    {
      lastPostId >= 0 && PostsOrdered(posts, lastPostId)
    }

    /** main's initialisation: empty lists and no post created yet. */
    constructor ()
      ensures Valid() && users == [] && posts == [] && lastPostId == 0 && getCount == 0
    {
      users, posts, lastPostId, getCount := [], [], 0, 0;
    }

    /** main's sample data: the same user appended six times, so e-mails
        are not unique. */
    method SeedUsers()
      modifies this
      ensures |users| == |old(users)| + 6 && users[..|old(users)|] == old(users)
      ensures forall i | |old(users)| <= i < |users| :: users[i] == SampleUser
      ensures posts == old(posts) && lastPostId == old(lastPostId) && getCount == old(getCount)
    {
      users := users + [SampleUser, SampleUser, SampleUser, SampleUser, SampleUser, SampleUser];
    }

    /** listUsers: counts the call and answers 200 whether or not there are
        users. */
    method ListUsers(c: Context)
      requires Live(c.State())
      modifies this, c
      ensures c.State() == Json(old(c.State()), StatusOK)
      ensures getCount == old(getCount) + 1 && users == old(users) && posts == old(posts) && lastPostId == old(lastPostId)
    {
      getCount := getCount + 1;
      c.DoStep(Reply(StatusOK, JsonType));
    }

    /** createUser: 400 for a body that does not decode or lacks a name or
        an e-mail, otherwise the user is appended and the answer is 201. */
    method CreateUser(c: Context, body: Option<User>)
      requires Live(c.State())
      modifies this, c
      ensures body.None? || body.value.name == [] || body.value.email == [] ==>
        users == old(users) && c.State() == Json(old(c.State()), StatusBadRequest)
      ensures body.Some? && body.value.name != [] && body.value.email != [] ==>
        users == old(users) + [body.value] && c.State() == Json(old(c.State()), StatusCreated)
      ensures posts == old(posts) && lastPostId == old(lastPostId) && getCount == old(getCount)
    {
      if body.None? {
        c.DoStep(Reply(StatusBadRequest, JsonType));
        return;
      }
      if body.value.name == [] || body.value.email == [] {
        c.DoStep(Reply(StatusBadRequest, JsonType));
        return;
      }
      users := users + [body.value];
      c.DoStep(Reply(StatusCreated, JsonType));
    }

    /** The position of the first user with e-mail `id`. */
    method SearchUser(id: string) returns (found: Option<nat>)
      ensures found == FirstUser(users, id)
    {
      var i := 0;
      while i < |users|
        invariant 0 <= i <= |users|
        invariant forall j | 0 <= j < i :: users[j].email != id
      {
        if users[i].email == id {
          return Some(i);
        }
        i := i + 1;
      }
      return None;
    }

    /** getUser: the first user whose e-mail is the "id" parameter, 200 and
        that user, or 404. */
    method GetUser(c: Context) returns (shown: Option<User>)
      requires Live(c.State())
      modifies c
      ensures var k := FirstUser(users, ParamValue(old(c.State()), "id"));
        && shown == (if k.Some? then Some(users[k.value]) else None)
        && c.State() == Json(old(c.State()), if k.Some? then StatusOK else StatusNotFound)
    {
      var id := c.Param("id");
      var found := SearchUser(id);
      if found.Some? {
        shown := Some(users[found.value]);
        c.DoStep(Reply(StatusOK, JsonType));
      } else {
        shown := None;
        c.DoStep(Reply(StatusNotFound, JsonType));
      }
    }
  
    /** updateUser: 400 for a body that does not decode; otherwise the
        first user whose e-mail is the "id" parameter is replaced by the
        body (200), or nothing changes (404). */
    method UpdateUser(c: Context, body: Option<User>)
      requires Live(c.State())
      modifies this, c
      ensures body.None? ==> users == old(users) && c.State() == Json(old(c.State()), StatusBadRequest)
      ensures body.Some? ==> var k := FirstUser(old(users), ParamValue(old(c.State()), "id"));
        && users == (if k.Some? then old(users)[k.value := body.value] else old(users))
        && c.State() == Json(old(c.State()), if k.Some? then StatusOK else StatusNotFound)
      ensures posts == old(posts) && lastPostId == old(lastPostId) && getCount == old(getCount)
    {
      var id := c.Param("id");
      if body.None? {
        c.DoStep(Reply(StatusBadRequest, JsonType));
        return;
      }
      var found := SearchUser(id);
      if found.Some? {
        users := users[found.value := body.value];
        c.DoStep(Reply(StatusOK, JsonType));
      } else {
        c.DoStep(Reply(StatusNotFound, JsonType));
      }
    }

    /** deleteUser: the first user whose e-mail is the "id" parameter is
        removed (200), or nothing changes (404). */
    method DeleteUser(c: Context)
      requires Live(c.State())
      modifies this, c
      ensures var k := FirstUser(old(users), ParamValue(old(c.State()), "id"));
        && users == (if k.Some? then RemoveAt(old(users), k.value) else old(users))
        && c.State() == Json(old(c.State()), if k.Some? then StatusOK else StatusNotFound)
      ensures posts == old(posts) && lastPostId == old(lastPostId) && getCount == old(getCount)
    {
      var id := c.Param("id");
      var found := SearchUser(id);
      if found.Some? {
        users := users[..found.value] + users[found.value + 1..];
        c.DoStep(Reply(StatusOK, JsonType));
      } else {
        c.DoStep(Reply(StatusNotFound, JsonType));
      }
    }

    /** listPosts. */
    method ListPosts(c: Context)
      requires Live(c.State())
      modifies c
      ensures c.State() == Json(old(c.State()), StatusOK)
    {
      c.DoStep(Reply(StatusOK, JsonType));
    }

    /** createPost: 400 for a body that does not decode; otherwise the post
        gets the next ID, whatever ID the body held, and is appended (201).
        `idText` is the "id" field of the answer. */
    method CreatePost(c: Context, body: Option<Post>) returns (idText: string)
      requires Live(c.State()) && Valid()
      modifies this, c
      ensures Valid()
      ensures body.None? ==>
        && posts == old(posts) && lastPostId == old(lastPostId) && idText == []
        && c.State() == Json(old(c.State()), StatusBadRequest)
      ensures body.Some? ==>
        && lastPostId == old(lastPostId) + 1 && posts == old(posts) + [body.value.(id := lastPostId)]
        && idText == Itoa(lastPostId) && c.State() == Json(old(c.State()), StatusCreated)
      ensures users == old(users) && getCount == old(getCount)
    {
      if body.None? {
        c.DoStep(Reply(StatusBadRequest, JsonType));
        return [];
      }
      lastPostId := lastPostId + 1;
      var post := body.value.(id := lastPostId);
      posts := posts + [post];
      idText := Itoa(post.id);
      c.DoStep(Reply(StatusCreated, JsonType));
    }

    /** The position of the first post with ID `id`. */
    method SearchPost(id: int) returns (found: Option<nat>)
      ensures found == FirstPost(posts, id)
    {
      var i := 0;
      while i < |posts|
        invariant 0 <= i <= |posts|
        invariant forall j | 0 <= j < i :: posts[j].id != id
      {
        if posts[i].id == id {
          return Some(i);
        }
        i := i + 1;
      }
      return None;
    }

    /** getPost: 400 when the "id" parameter is not an integer; otherwise
        200 and the post with that ID, or 404. */
    method GetPost(c: Context) returns (shown: Option<Post>)
      requires Live(c.State())
      modifies c
      ensures var postId := Atoi(ParamValue(old(c.State()), "id"));
        if postId.None? then shown.None? && c.State() == Json(old(c.State()), StatusBadRequest)
        else
          var k := FirstPost(posts, postId.value);
          && shown == (if k.Some? then Some(posts[k.value]) else None)
          && c.State() == Json(old(c.State()), if k.Some? then StatusOK else StatusNotFound)
    {
      var id := c.Param("id");
      var postId := Atoi(id);
      if postId.None? {
        c.DoStep(Reply(StatusBadRequest, JsonType));
        return None;
      }
      var found := SearchPost(postId.value);
      if found.Some? {
        shown := Some(posts[found.value]);
        c.DoStep(Reply(StatusOK, JsonType));
      } else {
        shown := None;
        c.DoStep(Reply(StatusNotFound, JsonType));
      }
    }

    /** updatePost: 400 when the "id" parameter is not an integer or the
        body does not decode (in that order); otherwise the post with that
        ID is replaced by the body, keeping its ID (200), or nothing changes
        (404). */
    method UpdatePost(c: Context, body: Option<Post>)
      requires Live(c.State()) && Valid()
      modifies this, c
      ensures Valid()
      ensures var postId := Atoi(ParamValue(old(c.State()), "id"));
        if postId.None? || body.None? then posts == old(posts) && c.State() == Json(old(c.State()), StatusBadRequest)
        else
          var k := FirstPost(old(posts), postId.value);
          && posts == (if k.Some? then old(posts)[k.value := body.value.(id := postId.value)] else old(posts))
          && c.State() == Json(old(c.State()), if k.Some? then StatusOK else StatusNotFound)
      ensures users == old(users) && lastPostId == old(lastPostId) && getCount == old(getCount)
    {
      var id := c.Param("id");
      var postId := Atoi(id);
      if postId.None? {
        c.DoStep(Reply(StatusBadRequest, JsonType));
        return;
      }
      if body.None? {
        c.DoStep(Reply(StatusBadRequest, JsonType));
        return;
      }
      var found := SearchPost(postId.value);
      if found.Some? {
        posts := posts[found.value := body.value.(id := postId.value)];
        c.DoStep(Reply(StatusOK, JsonType));
      } else {
        c.DoStep(Reply(StatusNotFound, JsonType));
      }
    }

    /** deletePost: 400 when the "id" parameter is not an integer; otherwise
        the post with that ID is removed (200), or nothing changes (404). */
    method DeletePost(c: Context)
      requires Live(c.State()) && Valid()
      modifies this, c
      ensures Valid()
      ensures var postId := Atoi(ParamValue(old(c.State()), "id"));
        if postId.None? then posts == old(posts) && c.State() == Json(old(c.State()), StatusBadRequest)
        else
          var k := FirstPost(old(posts), postId.value);
          && posts == (if k.Some? then RemoveAt(old(posts), k.value) else old(posts))
          && c.State() == Json(old(c.State()), if k.Some? then StatusOK else StatusNotFound)
      ensures users == old(users) && lastPostId == old(lastPostId) && getCount == old(getCount)
    {
      var id := c.Param("id");
      var postId := Atoi(id);
      if postId.None? {
        c.DoStep(Reply(StatusBadRequest, JsonType));
        return;
      }
      var found := SearchPost(postId.value);
      if found.Some? {
        RemoveKeepsOrder(posts, found.value, lastPostId);
        posts := posts[..found.value] + posts[found.value + 1..];
        c.DoStep(Reply(StatusOK, JsonType));
      } else {
        c.DoStep(Reply(StatusNotFound, JsonType));
      }
    }
  }

  // ------------------------------------------------------------- lemmas

  /** Removing a post keeps the IDs in order. */
  lemma RemoveKeepsOrder(posts: seq<Post>, k: nat, lastPostId: int)
    requires k < |posts| && PostsOrdered(posts, lastPostId)
    ensures PostsOrdered(RemoveAt(posts, k), lastPostId)
  {
    var r := RemoveAt(posts, k);
    assert forall i | 0 <= i < |r| :: r[i] == posts[if i < k then i else i + 1];
  }

  /** With IDs in order, a post ID names at most one post. */
  lemma PostIdsUnique(posts: seq<Post>, lastPostId: int, i: nat, j: nat)
    requires PostsOrdered(posts, lastPostId) && i < |posts| && j < |posts| && posts[i].id == posts[j].id
    ensures i == j
  {
    if i < j || j < i {
      assert false;
    }
  }

  /** A created post is found by getPost under the ID text the answer
      carries. */
  lemma CreatedPostFound(posts: seq<Post>, lastPostId: int, body: Post)
    requires PostsOrdered(posts, lastPostId) && 0 <= lastPostId < MaxInt64
    ensures var post := body.(id := lastPostId + 1);
      && PostsOrdered(posts + [post], lastPostId + 1)
      && Atoi(Itoa(lastPostId + 1)) == Some(lastPostId + 1)
      && FirstPost(posts + [post], lastPostId + 1) == Some(|posts|)
  {
    AtoiItoa(lastPostId + 1);
    var post := body.(id := lastPostId + 1);
    var grown := posts + [post];
    assert grown[|posts|].id == lastPostId + 1;
    assert forall j | 0 <= j < |posts| :: grown[j].id != lastPostId + 1 by {
      forall j | 0 <= j < |posts|
        ensures grown[j].id != lastPostId + 1
      {
        assert grown[j] == posts[j];
      }
    }
  }

  /** A deleted post is gone: getPost for its ID answers 404 afterwards. */
  lemma DeletedPostGone(posts: seq<Post>, lastPostId: int, id: int)
    requires PostsOrdered(posts, lastPostId) && FirstPost(posts, id).Some?
    ensures FirstPost(RemoveAt(posts, FirstPost(posts, id).value), id).None?
  {
    var k := FirstPost(posts, id).value;
    var r := RemoveAt(posts, k);
    forall i | 0 <= i < |r|
      ensures r[i].id != id
    {
      if i < k {
        assert r[i] == posts[i];
      } else {
        assert r[i] == posts[i + 1];
        assert posts[k].id < posts[i + 1].id;
      }
    }
  }

  /** Users are not unique by e-mail: deleteUser removes only the first
      match, so a later user with the same e-mail is then the one found. */
  lemma DeleteUserRemovesFirstOnly(users: seq<User>, id: string, later: nat)
    requires FirstUser(users, id).Some? && FirstUser(users, id).value < later < |users| && users[later].email == id
    ensures FirstUser(RemoveAt(users, FirstUser(users, id).value), id).Some?
    ensures |RemoveAt(users, FirstUser(users, id).value)| == |users| - 1
  {
    var k := FirstUser(users, id).value;
    var r := RemoveAt(users, k);
    assert r[later - 1] == users[later];
  }
}
