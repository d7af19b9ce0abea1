/** The posts page: the category and title filters, the search box, the
    page number, the request they make and when the pager's buttons show. */
module PostsList {
  import opened Common
  import opened PostSchema
  import PC = PostController

  /** The `filters` object; an absent key is `None`. */
  datatype Filters = Filters(category: Option<ObjectId>, title: Option<string>)

  const NoFilters := Filters(None, None)
  const PageSize := 10

  /** What `getAllPostsAPI` is called with: the filters, the search box as
      the title (overriding any filter title), the page and 10 per page. */
  datatype PostsRequest = PostsRequest(category: Option<ObjectId>, title: string, page: int, limit: int)

  function RequestFor(filters: Filters, searchQuery: string, page: int): (r: PostsRequest)
    ensures r.category == filters.category && r.title == searchQuery && r.page == page && r.limit == PageSize
  {
    PostsRequest(filters.category, searchQuery, page, PageSize)
  }

  /** `postsData?.totalPages > 1`: no answer, or a `null` count, hides the
      pager. */
  predicate ShowPagination(totalPages: Option<int>)
    ensures ShowPagination(totalPages) <==> ShowNext(1, totalPages)
  {
    totalPages.Some? && totalPages.value > 1
  }

  /** "Previous" is shown exactly when the page it leads to is a real page. */
  predicate ShowPrevious(page: int)
    ensures ShowPrevious(page) <==> 1 <= page - 1
  {
    page > 1
  }

  /** "Next" is shown exactly when the page it leads to is within the
      count. */
  predicate ShowNext(page: int, totalPages: Option<int>)
    ensures ShowNext(page, totalPages) <==> totalPages.Some? && page + 1 <= totalPages.value
  {
    totalPages.Some? && page < totalPages.value
  }

  /** A page inside [1, totalPages] stays inside it through whichever of the
      two buttons is shown. */
  lemma PagerStaysInRange(page: int, totalPages: int)
    requires 1 <= page <= totalPages
    ensures ShowPrevious(page) ==> 1 <= page - 1 <= totalPages
    ensures ShowNext(page, Some(totalPages)) ==> 1 <= page + 1 <= totalPages
    ensures !ShowPrevious(page) <==> page == 1
    ensures !ShowNext(page, Some(totalPages)) <==> page == totalPages
  {
  }

  /** Against the server's listing with the page size sent: the pager shows
      exactly when more than one page of posts matches, and "next" exactly
      when posts remain after this page. */
  lemma PagerMatchesListing(all: seq<Post>, category: Option<ObjectId>, page: int)
    requires page >= 1
    ensures PC.ListAllPosts(all, category, Some(page), Some(PageSize)).Ok?
    ensures var l := PC.ListAllPosts(all, category, Some(page), Some(PageSize)).value;
            var n := |PC.Matching(all, category)|;
            (ShowPagination(l.totalPages) <==> n > PageSize)
            && (ShowNext(page, l.totalPages) <==> page * PageSize < n)
  {
    var n := |PC.Matching(all, category)|;
    assert (page - 1) * PageSize >= 0;
    var c := PC.CeilDiv(n, PageSize);
    assert (c - 1) * PageSize < n <= c * PageSize;
    if page < c {
      assert page * PageSize <= (c - 1) * PageSize;
    }
    if page * PageSize < n {
      assert PageSize * page < PageSize * c;
      MulCancelLess(PageSize, page, c);
    }
  }

  class PostsScreen {
    var filters: Filters
    var searchQuery: string
    var page: int

    constructor ()
      ensures filters == NoFilters && searchQuery == "" && page == 1
    {
      filters, searchQuery, page := NoFilters, "", 1;
    }

    /** The request the page's query makes in the current state. */
    function CurrentRequest(): (r: PostsRequest)
      reads this
      ensures r == RequestFor(filters, searchQuery, page)
    {
      RequestFor(filters, searchQuery, page)
    }

    /** `handleCategoryFilter`: sets the category, keeps the title, back to
        the first page. */
    method HandleCategoryFilter(categoryId: ObjectId)
      modifies this`filters, this`page
      ensures filters == old(filters).(category := Some(categoryId)) && page == 1
      ensures CurrentRequest().category == Some(categoryId) && CurrentRequest().page == 1
    {
      filters := filters.(category := Some(categoryId));
      page := 1;
    }

    /** Typing in the search box changes only the box. */
    method HandleSearch(text: string)
      modifies this`searchQuery
      ensures searchQuery == text
    {
      searchQuery := text;
    }

    /** `handleSearchSubmit`: the box becomes the title filter, back to the
        first page. */
    method HandleSearchSubmit()
      modifies this`filters, this`page
      ensures filters == old(filters).(title := Some(searchQuery)) && page == 1
    {
      filters := filters.(title := Some(searchQuery));
      page := 1;
    }

    method HandlePageChange(newPage: int)
      modifies this`page
      ensures page == newPage
    {
      page := newPage;
    }

    /** `clearFilters`: no filters, an empty box, the first page. */
    method ClearFilters()
      modifies this
      ensures filters == NoFilters && searchQuery == "" && page == 1
      ensures CurrentRequest() == PostsRequest(None, "", 1, PageSize)
    {
      filters, searchQuery, page := NoFilters, "", 1;
    }
  }
}
