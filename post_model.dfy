/** The Post and Category documents. A post has a required, trimmed
    description, an optional uploaded image, its author and category, a view
    counter and four id lists (likes, dislikes, viewers, comments); a category
    lists the ids of its posts. */
module PostSchema {
  import opened Common
  import opened MongoArrays

  /** The upload record of an image, kept opaque. */
  type Image = string

  datatype Post = Post(
    id: ObjectId,
    description: string,
    image: Option<Image>,
    author: ObjectId,
    category: ObjectId,
    viewsCount: int,
    likes: seq<ObjectId>,
    dislikes: seq<ObjectId>,
    viewers: seq<ObjectId>,
    comments: seq<ObjectId>,
    isBlocked: bool)

  datatype Category = Category(id: ObjectId, categoryName: string, posts: seq<ObjectId>)

  /** A post created with the given fields; counters zero, id lists empty,
      not blocked. */
  function NewPost(id: ObjectId, description: string, image: Option<Image>,
                   author: ObjectId, category: ObjectId): (p: Post)
    ensures p.id == id && p.description == description && p.image == image
    ensures p.author == author && p.category == category
    ensures p.viewsCount == 0 && !p.isBlocked
    ensures p.likes == [] && p.dislikes == [] && p.viewers == [] && p.comments == []
  {
    Post(id, description, image, author, category, 0, [], [], [], [], false)
  }

  /** No user appears twice in one reaction list, and nobody both likes and
      dislikes the post. */
  ghost predicate ReactionsWellFormed(p: Post) {
    NoDuplicates(p.likes) && NoDuplicates(p.dislikes)
    && forall x :: x in p.likes ==> x !in p.dislikes
  }

  /** The Post collection, keyed by `_id`. */
  class PostCollection {
    var posts: map<ObjectId, Post>

    ghost predicate Valid()
      reads this
    {
      forall id :: id in posts ==> posts[id].id == id
    }

    constructor ()
      ensures Valid() && posts == map[]
    {
      posts := map[];
    }
  }

  /** The Category collection, keyed by `_id`. */
  class CategoryCollection {
    var categories: map<ObjectId, Category>

    ghost predicate Valid()
      reads this
    {
      forall id :: id in categories ==> categories[id].id == id
    }

    constructor ()
      ensures Valid() && categories == map[]
    {
      categories := map[];
    }
  }
}
