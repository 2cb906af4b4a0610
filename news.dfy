/** `NewsFeedViewModel`: loading the `posts` path newest first, creating a
    post signed with the author's email name, and deleting a post. */
module News {
  import opened Wire
  import opened Models
  import opened Seqs
  import opened Store

  // ------------------------------------------------------------------
  // Codec

  /** `JSONDecoder().decode(Post.self, ...)` under `.secondsSince1970`: the
      coding keys in declaration order, the first failure thrown. */
  function DecodePost(fields: Fields): (r: Result<Post, DecodeError>)
    ensures r.Ok? ==>
      && "authorName" in fields && fields["authorName"] == Str(r.value.authorName)
      && "text" in fields && fields["text"] == Str(r.value.text)
      && "date" in fields && fields["date"] == Num(r.value.date)
      && "authorId" in fields && fields["authorId"] == Str(r.value.authorId)
    ensures r.Ok? ==> (r.value.id.None? <==> "id" !in fields || fields["id"].Null?)
    ensures r.Ok? && r.value.id.Some? ==> "id" in fields && fields["id"] == Str(r.value.id.value)
    ensures r.Ok? <==>
      && ("id" !in fields || fields["id"].Null? || fields["id"].Str?)
      && StringField(fields, "authorName").Some?
      && StringField(fields, "text").Some?
      && NumberField(fields, "date").Some?
      && StringField(fields, "authorId").Some?
  {
    var id :- DecodeOptionalString(fields, "id");
    var authorName :- DecodeString(fields, "authorName");
    var text :- DecodeString(fields, "text");
    var date :- DecodeDate(fields, "date");
    var authorId :- DecodeString(fields, "authorId");
    Ok(Post(id, authorName, text, date, authorId))
  }

  /** What `createPost` writes. */
  function PostPayload(authorName: string, text: string, date: int, authorId: string): Fields
  {
    map["authorName" := Str(authorName), "text" := Str(text), "date" := Num(date), "authorId" := Str(authorId)]
  }

  /** A written post is read back with every field as written and no id. */
  lemma DecodePostPayload(authorName: string, text: string, date: int, authorId: string)
    ensures DecodePost(PostPayload(authorName, text, date, authorId)) == Ok(Post(None, authorName, text, date, authorId))
  {
  }

  // ------------------------------------------------------------------
  // Loading

  /** A child the closure of `handlePostsSnapshot` decodes at all: a
      dictionary with a string `authorId`. Other children are dropped. */
  predicate Listable(v: Value)
  {
    v.Dict? && StringField(v.fields, "authorId").Some?
  }

  /** What the closure does with the child `v` under `key`: skip it, throw
      the decode error, or keep the post with the key as its id and the
      `authorId` read by the cast. */
  function PostEntry(key: string, v: Value): Entry<Post>
  {
    if !Listable(v) then Skip
    else match DecodePost(v.fields)
      case Err(e) => Throw(e)
      case Ok(p) => Keep(p.(id := Some(key), authorId := StringField(v.fields, "authorId").value))
  }

  /** `p` is the post stored under `key` in the snapshot, with the key as its id. */
  predicate PostReadFrom(snapshot: Value, key: string, p: Post)
  {
    && snapshot.Dict? && key in snapshot.fields && Listable(snapshot.fields[key])
    && DecodePost(snapshot.fields[key].fields).Ok?
    && p == DecodePost(snapshot.fields[key].fields).value.(id := Some(key))
  }

  /** `.sorted { $0.date > $1.date }`: a permutation in non-increasing order of date. */
  function NewestFirst(ps: seq<Post>): (r: seq<Post>)
    ensures forall i, j :: 0 <= i < j < |r| ==> r[i].date >= r[j].date
    ensures multiset(r) == multiset(ps)
  {
    var r := SortBy(ps, (p: Post) => -p.date);
    assert forall i, j :: 0 <= i < j < |r| ==> -r[i].date <= -r[j].date;
    r
  }

  /** Sorting neither adds nor loses a post. */
  lemma NewestFirstSameMembers(ps: seq<Post>)
    ensures forall p :: p in NewestFirst(ps) <==> p in ps
  {
    var sorted := NewestFirst(ps);
    forall p ensures p in sorted <==> p in ps {
      assert p in sorted <==> multiset(sorted)[p] > 0;
      assert p in ps <==> multiset(ps)[p] > 0;
    }
  }

  /** The `compactMap` over a dictionary snapshot throws, whatever the
      visiting order, exactly when a listable child fails to decode. */
  lemma MappedPostsThrow(fields: Fields, order: seq<string>)
    requires Enumerates(order, fields)
    ensures CompactMap(fields, order, PostEntry).Err? <==>
      exists k :: k in fields && Listable(fields[k]) && DecodePost(fields[k].fields).Err?
  {
    var m := CompactMap(fields, order, PostEntry);
    if m.Err? {
      var i :| 0 <= i < |order| && PostEntry(order[i], fields[order[i]]).Throw?;
      assert order[i] in fields;
    }
    if exists k :: k in fields && Listable(fields[k]) && DecodePost(fields[k].fields).Err? {
      var k :| k in fields && Listable(fields[k]) && DecodePost(fields[k].fields).Err?;
      assert k in order;
      var i :| 0 <= i < |order| && order[i] == k;
      assert PostEntry(order[i], fields[order[i]]).Throw?;
    }
  }

  /** When it does not throw, the `compactMap` holds the posts of exactly
      the listable children, each under its key. */
  lemma MappedPosts(fields: Fields, order: seq<string>)
    requires Enumerates(order, fields)
    ensures var m := CompactMap(fields, order, PostEntry);
      m.Ok? ==> forall p :: p in m.value ==> p.id.Some? && PostReadFrom(Dict(fields), p.id.value, p)
    ensures var m := CompactMap(fields, order, PostEntry);
      m.Ok? ==> forall k :: k in fields && Listable(fields[k]) ==> exists p :: p in m.value && p.id == Some(k)
  {
    var m := CompactMap(fields, order, PostEntry);
    if m.Ok? {
      forall k | k in fields && Listable(fields[k]) ensures exists p :: p in m.value && p.id == Some(k) {
        assert k in order;
        var i :| 0 <= i < |order| && order[i] == k;
        var p := PostEntry(order[i], fields[order[i]]).record;
        assert p in m.value && p.id == Some(k);
      }
      forall p | p in m.value ensures p.id.Some? && PostReadFrom(Dict(fields), p.id.value, p) {
        var i :| 0 <= i < |order| && PostEntry(order[i], fields[order[i]]) == Keep(p);
      }
    }
  }

  /** No two posts share an id. */
  predicate DistinctPostIds(ps: seq<Post>)
  {
    forall i, j :: 0 <= i < j < |ps| ==> ps[i].id != ps[j].id
  }

  /** The posts kept from children other than `key` never carry `key` as id. */
  lemma KeptPostIdsAvoid(fields: Fields, order: seq<string>, key: string)
    requires forall k :: k in order ==> k in fields
    requires key !in order
    ensures var m := CompactMap(fields, order, PostEntry);
      m.Ok? ==> forall p :: p in m.value ==> p.id != Some(key)
  {
    var m := CompactMap(fields, order, PostEntry);
    if m.Ok? {
      forall p | p in m.value ensures p.id != Some(key) {
        var i :| 0 <= i < |order| && PostEntry(order[i], fields[order[i]]) == Keep(p);
        assert p.id == Some(order[i]);
      }
    }
  }

  /** A post whose id no other post carries can head a list of posts
      with distinct ids. */
  lemma ConsDistinctPostIds(p: Post, rest: seq<Post>)
    requires DistinctPostIds(rest)
    requires forall q :: q in rest ==> q.id != p.id
    ensures DistinctPostIds([p] + rest)
  {
    var r := [p] + rest;
    forall i, j | 0 <= i < j < |r| ensures r[i].id != r[j].id {
      assert r[j] == rest[j - 1];
      if i == 0 {
        assert r[j] in rest;
      } else {
        assert r[i] == rest[i - 1];
      }
    }
  }

  /** Whatever the visiting order, no two mapped posts share an id: each
      listable child contributes one post. */
  lemma {:induction false} MappedPostIdsDistinct(fields: Fields, order: seq<string>)
    requires forall k :: k in order ==> k in fields
    requires Distinct(order)
    ensures var m := CompactMap(fields, order, PostEntry); m.Ok? ==> DistinctPostIds(m.value)
    decreases |order|
  {
    if order != [] {
      var tail := order[1..];
      DistinctTail(order);
      MappedPostIdsDistinct(fields, tail);
      var e := PostEntry(order[0], fields[order[0]]);
      var rest := CompactMap(fields, tail, PostEntry);
      if e.Keep? && rest.Ok? {
        KeptPostIdsAvoid(fields, tail, order[0]);
        assert e.record.id == Some(order[0]);
        ConsDistinctPostIds(e.record, rest.value);
      }
    }
  }

  /** A post occurs at most once among posts with distinct ids. */
  lemma {:induction false} DistinctIdsOnce(ps: seq<Post>, x: Post)
    requires DistinctPostIds(ps)
    ensures multiset(ps)[x] <= 1
    decreases |ps|
  {
    if ps != [] {
      var rest := ps[1..];
      assert ps == [ps[0]] + rest;
      forall i, j | 0 <= i < j < |rest| ensures rest[i].id != rest[j].id {
        assert rest[i] == ps[i + 1] && rest[j] == ps[j + 1];
      }
      DistinctIdsOnce(rest, x);
      if ps[0] == x {
        forall j | 0 <= j < |rest| ensures rest[j] != x {
          assert rest[j] == ps[j + 1];
        }
      }
    }
  }

  /** A post found at two positions occurs twice. */
  lemma CountAtTwoPositions(ps: seq<Post>, i: int, j: int)
    requires 0 <= i < j < |ps|
    ensures multiset(ps)[ps[i]] >= if ps[i] == ps[j] then 2 else 1
  {
    assert ps == ps[..j] + ps[j..];
    assert ps[..j][i] == ps[i];
    assert ps[j..][0] == ps[j];
  }

  /** Reordering posts keeps their ids distinct. */
  lemma DistinctIdsPermutation(a: seq<Post>, b: seq<Post>)
    requires multiset(a) == multiset(b) && DistinctPostIds(a)
    ensures DistinctPostIds(b)
  {
    forall i, j | 0 <= i < j < |b| ensures b[i].id != b[j].id {
      DistinctIdsOnce(a, b[i]);
      CountAtTwoPositions(b, i, j);
      assert b[i] != b[j];
      assert b[i] in multiset(b) && b[j] in multiset(b);
      var p :| 0 <= p < |a| && a[p] == b[i];
      var q :| 0 <= q < |a| && a[q] == b[j];
      if p < q {
        assert a[p].id != a[q].id;
      } else {
        assert a[q].id != a[p].id;
      }
    }
  }

  /** The `do` block of `handlePostsSnapshot` for a snapshot whose dictionary
      is visited in `order`; what it yields is stated by `ParsePostsMeaning`. */
  function ParsePosts(snapshot: Value, order: seq<string>): (r: Result<seq<Post>, DecodeError>)
    requires snapshot.Dict? ==> Enumerates(order, snapshot.fields)
    ensures !snapshot.Dict? ==> r == Ok([])
  {
    if !snapshot.Dict? then Ok([])
    else
      var mapped :- CompactMap(snapshot.fields, order, PostEntry);
      Ok(NewestFirst(mapped))
  }

  /** `handlePostsSnapshot` loads `[]` from a snapshot that is not a
      dictionary; otherwise one listable child that fails to decode makes
      the whole load throw, and a successful load holds exactly the
      listable children's posts, one per child, each carrying its key as
      id, newest first. */
  lemma ParsePostsMeaning(snapshot: Value, order: seq<string>)
    requires snapshot.Dict? ==> Enumerates(order, snapshot.fields)
    ensures var r := ParsePosts(snapshot, order);
      && (r.Err? <==>
          snapshot.Dict? && exists k :: k in snapshot.fields && Listable(snapshot.fields[k]) && DecodePost(snapshot.fields[k].fields).Err?)
      && (r.Ok? ==> forall i, j :: 0 <= i < j < |r.value| ==> r.value[i].date >= r.value[j].date)
      && (r.Ok? ==> forall p :: p in r.value ==> p.id.Some? && PostReadFrom(snapshot, p.id.value, p))
      && (r.Ok? && snapshot.Dict? ==>
          forall k :: k in snapshot.fields && Listable(snapshot.fields[k]) ==> exists p :: p in r.value && p.id == Some(k))
      && (r.Ok? ==> DistinctPostIds(r.value))
  {
    if snapshot.Dict? {
      var mapped := CompactMap(snapshot.fields, order, PostEntry);
      MappedPostsThrow(snapshot.fields, order);
      MappedPosts(snapshot.fields, order);
      if mapped.Ok? {
        assert ParsePosts(snapshot, order) == Ok(NewestFirst(mapped.value));
        NewestFirstSameMembers(mapped.value);
        MappedPostIdsDistinct(snapshot.fields, order);
        DistinctIdsPermutation(mapped.value, NewestFirst(mapped.value));
      }
    }
  }

  /** `error.localizedDescription` of a decoding error, as Foundation words it. */
  function Localized(e: DecodeError): string
  {
    match e
    case KeyNotFound(_) => "The data couldn’t be read because it is missing."
    case ValueNotFound(_) => "The data couldn’t be read because it is missing."
    case TypeMismatch(_) => "The data couldn’t be read because it isn’t in the correct format."
    case DataCorrupted(_) => "The data couldn’t be read because it isn’t in the correct format."
  }

  // ------------------------------------------------------------------
  // Creating

  /** `email.components(separatedBy: "@").first`: the part of the email
      before its first `@`, the whole email if it has none. */
  function AuthorName(email: string): (r: string)
    ensures r <= email
    ensures '@' !in r
    ensures |r| < |email| ==> email[|r|] == '@'
  {
    if email == [] || email[0] == '@' then []
    else [email[0]] + AuthorName(email[1..])
  }

  /** The author name of `name@domain` is `name`, whatever the domain. */
  lemma AuthorNameOfAddress(name: string, domain: string)
    requires '@' !in name
    ensures AuthorName(name + "@" + domain) == name
  {
    var email := name + "@" + domain;
    assert email[|name|] == '@';
  }

  /** The status message set when nobody is signed in. */
  const NotAuthenticated := "Пользователь не аутентифицирован"

  class NewsFeedViewModel {
    var posts: seq<Post>
    var isLoading: bool
    var errorMessage: string
    /** The `posts` path. */
    const db: Collection

    constructor (db: Collection)
      ensures this.db == db && posts == [] && !isLoading && errorMessage == ""
    {
      this.db := db;
      posts := [];
      isLoading := false;
      errorMessage := "";
    }

    /** `fetchPosts()`: loading starts and a single read of the path is
        requested; its snapshot arrives in `HandlePostsSnapshot`. */
    method FetchPosts()
      modifies this`isLoading
      ensures isLoading
    {
      isLoading := true;
    }

    /** `handlePostsSnapshot` for the current contents of the path, visited
        in `order`: loading ends on every path; a failed load sets the error
        message and keeps the posts shown so far. */
    method HandlePostsSnapshot(order: seq<string>)
      requires db.children != map[] ==> Enumerates(order, db.children)
      modifies this`posts, this`isLoading, this`errorMessage
      ensures !isLoading
      ensures var parsed := ParsePosts(db.Snapshot(), order);
        if parsed.Ok? then posts == parsed.value && errorMessage == old(errorMessage)
        else posts == old(posts) && errorMessage == "Ошибка загрузки постов: " + Localized(parsed.error)
    {
      var snapshot := db.Snapshot();
      if !snapshot.Dict? {
        posts := [];
      } else {
        var parsed := ParsePosts(snapshot, order);
        match parsed {
          case Ok(loaded) => posts := loaded;
          case Err(e) => errorMessage := "Ошибка загрузки постов: " + Localized(e);
        }
      }
      isLoading := false;
    }

    /** `createPost(text:)` with `session` for `Auth.auth().currentUser`,
        `now` for `Date()`, `autoId` for the key `childByAutoId()` makes and
        `failure` for the write's completion error. With no uid or no email
        nothing is written; a successful write starts a new fetch. */
    method CreatePost(text: string, session: Option<Session>, now: int, autoId: string, failure: Option<string>)
      requires autoId !in db.children
      modifies db, this`errorMessage, this`isLoading
      ensures session.None? || session.value.email.None? ==>
        errorMessage == NotAuthenticated && db.children == old(db.children) && isLoading == old(isLoading)
      ensures session.Some? && session.value.email.Some? ==>
        var payload := PostPayload(AuthorName(session.value.email.value), text, now, session.value.uid);
        if failure.None? then
          db.children == old(db.children)[autoId := Dict(payload)] && isLoading && errorMessage == old(errorMessage)
        else
          db.children == old(db.children) && errorMessage == "Ошибка создания поста: " + failure.value && isLoading == old(isLoading)
    {
      if session.None? || session.value.email.None? {
        errorMessage := NotAuthenticated;
        return;
      }
      var userId := session.value.uid;
      var userName := AuthorName(session.value.email.value);
      var postData := PostPayload(userName, text, now, userId);
      var error := db.SetValue(autoId, Dict(postData), failure);
      if error.Some? {
        errorMessage := "Ошибка создания поста: " + error.value;
      } else {
        FetchPosts();
      }
    }

    /** `deletePost(_:)`: a post without an id is left alone; otherwise the
        child under its id is removed. Nobody hears of a failed removal. */
    method DeletePost(post: Post, failure: Option<string>)
      modifies db
      ensures db.children == if post.id.Some? && failure.None? then old(db.children) - {post.id.value} else old(db.children)
    {
      if post.id.None? {
        return;
      }
      var _ := db.RemoveValue(post.id.value, failure);
    }
  }

  /** A listable child that decodes is, on a successful load, in the feed
      under its key. */
  lemma StoredPostIsListed(fields: Fields, order: seq<string>, key: string)
    requires Enumerates(order, fields)
    requires key in fields && Listable(fields[key]) && DecodePost(fields[key].fields).Ok?
    ensures var r := ParsePosts(Dict(fields), order);
      r.Ok? ==> DecodePost(fields[key].fields).value.(id := Some(key)) in r.value
  {
    var r := ParsePosts(Dict(fields), order);
    ParsePostsMeaning(Dict(fields), order);
    if r.Ok? {
      var p :| p in r.value && p.id == Some(key);
      assert PostReadFrom(Dict(fields), key, p);
    }
  }

  /** A post created by `name@domain` is, on the next successful load, in
      the feed under its new key, signed `name`, with the author's uid. */
  lemma CreatedPostIsListed(children: map<string, Value>, autoId: string, text: string, now: int, uid: string,
                            name: string, domain: string, order: seq<string>)
    requires '@' !in name
    requires Enumerates(order, children[autoId := Dict(PostPayload(AuthorName(name + "@" + domain), text, now, uid))])
    ensures var r := ParsePosts(Dict(children[autoId := Dict(PostPayload(AuthorName(name + "@" + domain), text, now, uid))]), order);
      r.Ok? ==> Post(Some(autoId), name, text, now, uid) in r.value
  {
    AuthorNameOfAddress(name, domain);
    var payload := PostPayload(name, text, now, uid);
    var fields := children[autoId := Dict(payload)];
    DecodePostPayload(name, text, now, uid);
    assert fields[autoId] == Dict(payload);
    assert StringField(payload, "authorId") == Some(uid);
    StoredPostIsListed(fields, order, autoId);
  }

  /** `NewsFeedView`'s swipe gate: a post may be deleted by its author or
      by an administrator. */
  predicate CanDeletePost(post: Post, currentUser: Option<AppUser>, isAdmin: bool)
  {
    (currentUser.Some? && post.authorId == currentUser.value.id) || isAdmin
  }

  lemma OthersPostsNeedAdmin(post: Post, currentUser: Option<AppUser>, isAdmin: bool)
    ensures !isAdmin && (currentUser.None? || currentUser.value.id != post.authorId) ==> !CanDeletePost(post, currentUser, isAdmin)
    ensures currentUser.Some? && currentUser.value.id == post.authorId ==> CanDeletePost(post, currentUser, isAdmin)
  {
  }
}
