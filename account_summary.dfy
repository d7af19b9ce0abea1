/** The account-summary dashboard: totals of views, likes, comments and
    dislikes over the user's posts, the follower counts, the seven stat
    tiles, and when the "verify your account" prompt shows. */
module AccountSummary {
  import opened Common

  /** A populated post as the profile answer carries it; an array the answer
      lacks is `None`. */
  datatype PostCounts = PostCounts(
    viewers: Option<seq<ObjectId>>,
    likes: Option<seq<ObjectId>>,
    comments: Option<seq<ObjectId>>,
    dislikes: Option<seq<ObjectId>>)

  /** The part of the profile answer the page reads. A post entry is `None`
      where the populated reference is `null`. */
  datatype ProfileUser = ProfileUser(
    email: Option<string>,
    isEmailVerified: Option<bool>,
    followers: Option<seq<ObjectId>>,
    following: Option<seq<ObjectId>>,
    posts: seq<Option<PostCounts>>)

  /** `list?.length || 0`. */
  function LengthOr0(list: Option<seq<ObjectId>>): (n: nat)
    ensures list.None? ==> n == 0
    ensures list.Some? ==> n == |list.value|
  {
    match list
    case Some(s) => |s|
    case None => 0
  }

  datatype Metric = Views | Likes | Comments | Dislikes

  /** What one post adds to a total. */
  function Contribution(post: Option<PostCounts>, m: Metric): (n: nat)
    ensures post.None? ==> n == 0
  {
    match post
    case None => 0
    case Some(p) =>
      match m
      case Views => LengthOr0(p.viewers)
      case Likes => LengthOr0(p.likes)
      case Comments => LengthOr0(p.comments)
      case Dislikes => LengthOr0(p.dislikes)
  }

  /** The total of a metric over a list of posts. */
  function Total(posts: seq<Option<PostCounts>>, m: Metric): (n: nat)
    ensures posts == [] ==> n == 0
  {
    if posts == [] then 0 else Total(posts[..|posts| - 1], m) + Contribution(posts[|posts| - 1], m)
  }

  /** Totals add up over a split of the list, so they do not depend on how
      the posts are grouped. */
  lemma {:induction false} TotalAppend(a: seq<Option<PostCounts>>, b: seq<Option<PostCounts>>, m: Metric)
    ensures Total(a + b, m) == Total(a, m) + Total(b, m)
  {
    if b == [] {
      assert a + b == a;
    } else {
      assert (a + b)[..|a + b| - 1] == a + b[..|b| - 1];
      assert (a + b)[|a + b| - 1] == b[|b| - 1];
      TotalAppend(a, b[..|b| - 1], m);
    }
  }

  /** Posts with no arrays, and missing posts, add nothing. */
  lemma {:induction false} EmptyPostsAddNothing(posts: seq<Option<PostCounts>>, m: Metric)
    requires forall i :: 0 <= i < |posts| ==> posts[i].None? || posts[i] == Some(PostCounts(None, None, None, None))
    ensures Total(posts, m) == 0
  {
    if posts != [] {
      EmptyPostsAddNothing(posts[..|posts| - 1], m);
    }
  }

  /** The `forEach` over the posts that accumulates the four totals. */
  method Totals(posts: seq<Option<PostCounts>>) returns (views: nat, likes: nat, comments: nat, dislikes: nat)
    ensures views == Total(posts, Views) && likes == Total(posts, Likes)
    ensures comments == Total(posts, Comments) && dislikes == Total(posts, Dislikes)
  {
    views, likes, comments, dislikes := 0, 0, 0, 0;
    var i := 0;
    while i < |posts|
      invariant 0 <= i <= |posts|
      invariant views == Total(posts[..i], Views) && likes == Total(posts[..i], Likes)
      invariant comments == Total(posts[..i], Comments) && dislikes == Total(posts[..i], Dislikes)
    {
      assert posts[..i + 1] == posts[..i] + [posts[i]];
      TotalAppend(posts[..i], [posts[i]], Views);
      TotalAppend(posts[..i], [posts[i]], Likes);
      TotalAppend(posts[..i], [posts[i]], Comments);
      TotalAppend(posts[..i], [posts[i]], Dislikes);
      var post := posts[i];
      if post.Some? {
        views := views + LengthOr0(post.value.viewers);
        likes := likes + LengthOr0(post.value.likes);
        comments := comments + LengthOr0(post.value.comments);
        dislikes := dislikes + LengthOr0(post.value.dislikes);
      }
      i := i + 1;
    }
    assert posts[..|posts|] == posts;
  }

  datatype Stat = Stat(name: string, value: nat)

  const StatLabels: seq<string> := ["Views", "Followers", "Likes", "Dislikes", "Following", "Posts", "Comments"]

  /** The stat tiles for a signed-in user, in their fixed order. */
  function StatsOf(u: ProfileUser): (s: seq<Stat>)
    ensures |s| == 7
    ensures forall i :: 0 <= i < 7 ==> s[i].name == StatLabels[i]
    ensures s[0].value == Total(u.posts, Views) && s[2].value == Total(u.posts, Likes)
    ensures s[3].value == Total(u.posts, Dislikes) && s[6].value == Total(u.posts, Comments)
    ensures s[1].value == LengthOr0(u.followers) && s[4].value == LengthOr0(u.following)
    ensures s[5].value == |u.posts|
  {
    [Stat("Views", Total(u.posts, Views)),
     Stat("Followers", LengthOr0(u.followers)),
     Stat("Likes", Total(u.posts, Likes)),
     Stat("Dislikes", Total(u.posts, Dislikes)),
     Stat("Following", LengthOr0(u.following)),
     Stat("Posts", |u.posts|),
     Stat("Comments", Total(u.posts, Comments))]
  }

  /** Before the profile answers, every tile reads 0. */
  function Stats(user: Option<ProfileUser>): (s: seq<Stat>)
    ensures |s| == 7
    ensures forall i :: 0 <= i < 7 ==> s[i].name == StatLabels[i]
    ensures user.None? ==> forall i :: 0 <= i < 7 ==> s[i].value == 0
    ensures user.Some? ==> s == StatsOf(user.value)
  {
    match user
    case Some(u) => StatsOf(u)
    case None => StatsOf(ProfileUser(None, None, None, None, []))
  }

  /** A user without follower lists shows 0 followers and 0 following. */
  lemma MissingFollowListsShowZero(u: ProfileUser)
    requires u.followers.None? && u.following.None?
    ensures Stats(Some(u))[1].value == 0 && Stats(Some(u))[4].value == 0
  {
  }

  datatype MutationStatus = Idle | Pending | Succeeded | Failed

  /** The prompt shows while the e-mail is unverified (a missing flag counts
      as unverified) and no verification e-mail has been requested. */
  predicate ShowVerificationPrompt(user: Option<ProfileUser>, status: MutationStatus)
    ensures ShowVerificationPrompt(user, status) ==> status == Idle
    ensures user.Some? && user.value.isEmailVerified == Some(true) ==> !ShowVerificationPrompt(user, status)
    ensures status == Idle && (user.None? || user.value.isEmailVerified != Some(true))
            ==> ShowVerificationPrompt(user, status)
  {
    !(user.Some? && user.value.isEmailVerified == Some(true)) && status == Idle
  }

  /** Requesting the e-mail hides the prompt whatever the outcome, and a
      verified user never sees it. */
  lemma PromptHidesOnceRequested(user: Option<ProfileUser>, status: MutationStatus)
    ensures status != Idle ==> !ShowVerificationPrompt(user, status)
    ensures user.Some? && user.value.isEmailVerified == Some(true) ==> !ShowVerificationPrompt(user, status)
    ensures ShowVerificationPrompt(None, Idle)
  {
  }

  /** The page's mutation state: idle until the user asks for the e-mail. */
  class VerificationRequest {
    var status: MutationStatus
    var requests: nat

    constructor ()
      ensures status == Idle && requests == 0
    {
      status, requests := Idle, 0;
    }

    /** `handleSendVerificationEmail`. */
    method Send()
      modifies this
      ensures status == Pending && requests == old(requests) + 1
    {
      status := Pending;
      requests := requests + 1;
    }

    /** The server answered, successfully or not. `verifyEmail` answers only
        when the e-mail could not be sent, so against it only the failed
        settlement happens; after a successful send the mutation stays
        pending. */
    method Settle(ok: bool)
      modifies this`status
      ensures status == (if ok then Succeeded else Failed)
    {
      status := if ok then Succeeded else Failed;
    }
  }
}
