/** The post controller: `createPost` with its back-links, `listAllPosts`
    paging, the `getPost` viewer set, and the `likePost` / `dislikePost`
    toggles. */
module PostController {
  import opened Common
  import opened MongoArrays
  import opened Text
  import opened UserModel
  import opened PostSchema

  datatype Failure = PostNotFound | CategoryNotFound | UserNotFound | ValidationFailed | InvalidSkip

  datatype Outcome<+T> = Ok(value: T) | Fail(failure: Failure)

  // ---------------------------------------------------------------------
  // Reactions
  // ---------------------------------------------------------------------

  /** `likePost` on a loaded post: a dislike by `u` is pulled, then the like
      toggles (pulled when present, pushed otherwise). */
  function Liked(p: Post, u: ObjectId): (q: Post)
    ensures u !in q.dislikes
    ensures u in q.likes <==> u !in p.likes
    ensures forall x :: x != u ==> (x in q.likes <==> x in p.likes)
    ensures forall x :: x != u ==> (x in q.dislikes <==> x in p.dislikes)
    ensures q.(likes := p.likes, dislikes := p.dislikes) == p
  {
    var dislikes := if u in p.dislikes then Pull(p.dislikes, u) else p.dislikes;
    var likes := if u in p.likes then Pull(p.likes, u) else p.likes + [u];
    p.(likes := likes, dislikes := dislikes)
  }

  /** `dislikePost`, the mirror image: a like by `u` is pulled, then the
      dislike toggles. */
  function Disliked(p: Post, u: ObjectId): (q: Post)
    ensures u !in q.likes
    ensures u in q.dislikes <==> u !in p.dislikes
    ensures forall x :: x != u ==> (x in q.likes <==> x in p.likes)
    ensures forall x :: x != u ==> (x in q.dislikes <==> x in p.dislikes)
    ensures q.(likes := p.likes, dislikes := p.dislikes) == p
  {
    var likes := if u in p.likes then Pull(p.likes, u) else p.likes;
    var dislikes := if u in p.dislikes then Pull(p.dislikes, u) else p.dislikes + [u];
    p.(likes := likes, dislikes := dislikes)
  }

  /** Both toggles keep the reaction lists free of duplicates and
      disjoint. */
  lemma ReactionsStayWellFormed(p: Post, u: ObjectId)
    requires ReactionsWellFormed(p)
    ensures ReactionsWellFormed(Liked(p, u))
    ensures ReactionsWellFormed(Disliked(p, u))
  {
    PullKeepsNoDuplicates(p.likes, u);
    PullKeepsNoDuplicates(p.dislikes, u);
    AddToSetKeepsNoDuplicates(p.likes, u);
    AddToSetKeepsNoDuplicates(p.dislikes, u);
  }

  /** Liking twice, starting from no reaction, restores the post. */
  lemma LikeTwiceRestores(p: Post, u: ObjectId)
    requires u !in p.likes && u !in p.dislikes
    ensures Liked(Liked(p, u), u) == p
  {
    PullUndoesAddToSet(p.likes, u);
  }

  /** Disliking twice, starting from no reaction, restores the post. */
  lemma DislikeTwiceRestores(p: Post, u: ObjectId)
    requires u !in p.likes && u !in p.dislikes
    ensures Disliked(Disliked(p, u), u) == p
  {
    PullUndoesAddToSet(p.dislikes, u);
  }

  /** `likePost`: a missing post throws; otherwise the toggled post is saved
      and returned. */
  method LikePost(posts: PostCollection, postId: ObjectId, user: ObjectId) returns (r: Outcome<Post>)
    requires posts.Valid()
    modifies posts
    ensures posts.Valid()
    ensures r.Fail? <==> postId !in old(posts.posts)
    ensures r.Fail? ==> r.failure == PostNotFound && posts.posts == old(posts.posts)
    ensures r.Ok? ==> r.value == Liked(old(posts.posts)[postId], user)
                      && posts.posts == old(posts.posts)[postId := r.value]
  {
    if postId !in posts.posts {
      return Fail(PostNotFound);
    }
    var p := posts.posts[postId];
    if user in p.dislikes {
      p := p.(dislikes := Pull(p.dislikes, user));
    }
    if user in p.likes {
      p := p.(likes := Pull(p.likes, user));
    } else {
      p := p.(likes := p.likes + [user]);
    }
    posts.posts := posts.posts[postId := p];
    r := Ok(p);
  }

  /** `dislikePost`. */
  method DislikePost(posts: PostCollection, postId: ObjectId, user: ObjectId) returns (r: Outcome<Post>)
    requires posts.Valid()
    modifies posts
    ensures posts.Valid()
    ensures r.Fail? <==> postId !in old(posts.posts)
    ensures r.Fail? ==> r.failure == PostNotFound && posts.posts == old(posts.posts)
    ensures r.Ok? ==> r.value == Disliked(old(posts.posts)[postId], user)
                      && posts.posts == old(posts.posts)[postId := r.value]
  {
    if postId !in posts.posts {
      return Fail(PostNotFound);
    }
    var p := posts.posts[postId];
    if user in p.likes {
      p := p.(likes := Pull(p.likes, user));
    }
    if user in p.dislikes {
      p := p.(dislikes := Pull(p.dislikes, user));
    } else {
      p := p.(dislikes := p.dislikes + [user]);
    }
    posts.posts := posts.posts[postId := p];
    r := Ok(p);
  }

  // ---------------------------------------------------------------------
  // Viewers
  // ---------------------------------------------------------------------

  /** `$addToSet: { viewers: userId }`, applied only when a user is signed
      in. */
  function Viewed(p: Post, user: Option<ObjectId>): (q: Post)
    ensures forall x :: x in q.viewers <==> x in p.viewers || user == Some(x)
    ensures |p.viewers| <= |q.viewers| <= |p.viewers| + 1
    ensures user.None? ==> q == p
    ensures q.(viewers := p.viewers) == p
  {
    if user.Some? then p.(viewers := AddToSet(p.viewers, user.value)) else p
  }

  /** Repeated views by the same user do not grow the viewer list. */
  lemma ViewedIdempotent(p: Post, user: Option<ObjectId>)
    ensures Viewed(Viewed(p, user), user) == Viewed(p, user)
  {
    if user.Some? {
      AddToSetIdempotent(p.viewers, user.value);
    }
  }

  /** `getPost`: a missing post throws; otherwise the post as loaded, before
      the viewer update, is returned. */
  method GetPost(posts: PostCollection, postId: ObjectId, user: Option<ObjectId>) returns (r: Outcome<Post>)
    requires posts.Valid()
    modifies posts
    ensures posts.Valid()
    ensures r.Fail? <==> postId !in old(posts.posts)
    ensures r.Fail? ==> r.failure == PostNotFound && posts.posts == old(posts.posts)
    ensures r.Ok? ==> r.value == old(posts.posts)[postId]
                      && posts.posts == old(posts.posts)[postId := Viewed(r.value, user)]
  {
    if postId !in posts.posts {
      return Fail(PostNotFound);
    }
    var found := posts.posts[postId];
    if user.Some? {
      posts.posts := posts.posts[postId := found.(viewers := AddToSet(found.viewers, user.value))];
    }
    r := Ok(found);
  }

  // ---------------------------------------------------------------------
  // Creation
  // ---------------------------------------------------------------------

  /** Every stored post is listed by its category and by its author. */
  ghost predicate BackLinked(posts: map<ObjectId, Post>, categories: map<ObjectId, Category>,
                             users: map<ObjectId, User>) {
    forall id :: id in posts ==>
      posts[id].category in categories && id in categories[posts[id].category].posts
      && posts[id].author in users && id in users[posts[id].author].posts
  }

  /** `createPost`: the category is looked up first, then the author; the
      description is trimmed and must not end up empty. The new post's id
      is pushed onto the category's and the author's `posts`. `newId` is
      the fresh id the store assigns. */
  method CreatePost(posts: PostCollection, categories: CategoryCollection, users: UserCollection,
                    newId: ObjectId, description: string, image: Option<Image>,
                    requester: ObjectId, categoryId: ObjectId) returns (r: Outcome<Post>)
    requires posts.Valid() && categories.Valid() && users.Valid()
    requires newId !in posts.posts
    modifies posts, categories, users
    ensures posts.Valid() && categories.Valid() && users.Valid()
    ensures r == Fail(CategoryNotFound) <==> categoryId !in old(categories.categories)
    ensures r == Fail(UserNotFound)
            <==> categoryId in old(categories.categories) && requester !in old(users.users)
    ensures r == Fail(ValidationFailed)
            <==> categoryId in old(categories.categories) && requester in old(users.users)
                 && Trim(description) == ""
    ensures r.Fail? ==> posts.posts == old(posts.posts) && categories.categories == old(categories.categories)
                        && users.users == old(users.users)
    ensures r.Ok? ==>
              r.value == NewPost(newId, Trim(description), image, requester, categoryId)
              && posts.posts == old(posts.posts)[newId := r.value]
              && categories.categories == old(categories.categories)[categoryId :=
                   old(categories.categories)[categoryId].(posts := old(categories.categories)[categoryId].posts + [newId])]
              && users.users == old(users.users)[requester :=
                   old(users.users)[requester].(posts := old(users.users)[requester].posts + [newId])]
    ensures old(BackLinked(posts.posts, categories.categories, users.users))
            ==> BackLinked(posts.posts, categories.categories, users.users)
  {
    if categoryId !in categories.categories {
      return Fail(CategoryNotFound);
    }
    if requester !in users.users {
      return Fail(UserNotFound);
    }
    var text := Trim(description);
    if text == "" {
      return Fail(ValidationFailed);
    }
    var created := NewPost(newId, text, image, requester, categoryId);
    posts.posts := posts.posts[newId := created];
    var category := categories.categories[categoryId];
    categories.categories := categories.categories[categoryId := category.(posts := category.posts + [newId])];
    var author := users.users[requester];
    users.users := users.users[requester := author.(posts := author.posts + [newId])];
    r := Ok(created);
  }

  // ---------------------------------------------------------------------
  // Listing
  // ---------------------------------------------------------------------

  /** The posts `Post.find(filter)` returns, newest first: all of them, or
      those of one category when a non-empty category is given. */
  function Matching(all: seq<Post>, category: Option<ObjectId>): (m: seq<Post>)
    ensures |m| <= |all|
    ensures forall p :: p in m <==> p in all && (category.None? || category.value == "" || p.category == category.value)
  {
    if all == [] then []
    else
      var rest := Matching(all[1..], category);
      if category.None? || category.value == "" || all[0].category == category.value then [all[0]] + rest
      else rest
  }

  /** `Math.ceil(total / limit)` for a non-zero limit. */
  function CeilDiv(total: nat, limit: int): (c: int)
    requires limit != 0
    ensures limit > 0 ==> 0 <= c && (c - 1) * limit < total <= c * limit
    ensures limit < 0 ==> c == -(total / -limit)
  {
    if limit > 0 then
      DivBrackets(total + limit - 1, limit);
      (total + limit - 1) / limit
    else -(total / -limit)
  }

  /** The response of `listAllPosts`. `totalPages` is absent when the limit
      is 0, where the division gives a non-number. */
  datatype Listing = Listing(posts: seq<Post>, currentPage: int, perPage: int, totalPages: Option<int>)

  function Min(a: int, b: int): int {
    if a <= b then a else b
  }

  /** `find().skip(skip).limit(lim)` on the matching posts: a limit of 0
      means no limit and a negative one is taken by its size. */
  function PageSlice(m: seq<Post>, skip: nat, lim: int): (r: seq<Post>)
    ensures lim != 0 ==> |r| <= if lim < 0 then -lim else lim
    ensures lim > 0 && skip < |m| ==> |r| == Min(lim, |m| - skip)
    ensures forall k :: 0 <= k < |r| ==> skip + k < |m| && r[k] == m[skip + k]
    ensures lim == 0 ==> r == (if skip <= |m| then m[skip..] else [])
  {
    var size := if lim < 0 then -lim else lim;
    var from := Min(skip, |m|);
    var to := if lim == 0 then |m| else Min(skip + size, |m|);
    m[from..to]
  }

  /** `listAllPosts`: page defaults to 1 and limit to 10; `skip` is
      `(page - 1) * limit` and a negative skip is refused by the store; a
      limit of 0 means no limit and a negative one is taken by its size. */
  function ListAllPosts(all: seq<Post>, category: Option<ObjectId>, page: Option<int>, limit: Option<int>)
    : (r: Outcome<Listing>)
    ensures var pg, lim := page.GetOr(1), limit.GetOr(10);
            r.Fail? <==> (pg - 1) * lim < 0
    ensures r.Fail? ==> r.failure == InvalidSkip
    ensures r.Ok? ==> var pg, lim, m := page.GetOr(1), limit.GetOr(10), Matching(all, category);
              var skip := (pg - 1) * lim;
              r.value.currentPage == pg && r.value.perPage == lim
              && skip >= 0 && r.value.posts == PageSlice(m, skip, lim)
              && (lim != 0 ==> r.value.totalPages == Some(CeilDiv(|m|, lim)))
              && (lim == 0 ==> r.value.totalPages.None?)
  {
    var pg, lim, m := page.GetOr(1), limit.GetOr(10), Matching(all, category);
    var skip := (pg - 1) * lim;
    if skip < 0 then Fail(InvalidSkip)
    else Ok(Listing(PageSlice(m, skip, lim), pg, lim, if lim == 0 then None else Some(CeilDiv(|m|, lim))))
  }

  /** A post before the end lies on a page within `Math.ceil(total / limit)`. */
  lemma PageWithinCount(total: nat, limit: int, q: nat)
    requires limit > 0 && q * limit < total
    ensures q + 1 <= CeilDiv(total, limit)
  {
    var c := CeilDiv(total, limit);
    assert q * limit == limit * q && c * limit == limit * c;
    MulCancelLess(limit, q, c);
  }

  /** Every matching post is on its page: the post at index
      `q * limit + j` is position `j` of page `q + 1`, and that page is
      within `totalPages`. */
  lemma EveryPostIsOnItsPage(all: seq<Post>, category: Option<ObjectId>, limit: int, q: nat, j: nat)
    requires 0 <= j < limit && q * limit + j < |Matching(all, category)|
    ensures var r := ListAllPosts(all, category, Some(q + 1), Some(limit));
            r.Ok? && r.value.totalPages.Some? && 1 <= q + 1 <= r.value.totalPages.value
            && j < |r.value.posts| && r.value.posts[j] == Matching(all, category)[q * limit + j]
  {
    var m := Matching(all, category);
    assert (q + 1 - 1) * limit == q * limit;
    PageWithinCount(|m|, limit, q);
    PageSliceAt(m, q * limit, limit, j);
  }

  /** Position `j` of a page of size `lim` starting at `skip` shows post
      `skip + j`. */
  lemma PageSliceAt(m: seq<Post>, skip: nat, lim: int, j: nat)
    requires 0 <= j < lim && skip + j < |m|
    ensures j < |PageSlice(m, skip, lim)| && PageSlice(m, skip, lim)[j] == m[skip + j]
  {
  }

  /** Without a query the first ten posts, newest first, form page 1. */
  lemma DefaultListing(all: seq<Post>)
    ensures var r := ListAllPosts(all, None, None, None);
            r.Ok? && r.value.currentPage == 1 && r.value.perPage == 10
            && r.value.posts == Matching(all, None)[..Min(10, |Matching(all, None)|)]
  {
  }
}
