/**
 Pagination of the blog listing: a fixed page size of six, the posts of the
 current page cut out with `Array.prototype.slice`, the page count, and the
 page buttons shown under the grid. Posts are opaque values of type `T`, in
 the order the store returned them.
 */
module Blog {

  import opened Ints

  const PostsPerPage: nat := 6

  /** How `slice` turns one of its arguments into a position: a negative
      argument counts back from the end, and the result is clamped to
      [0, n]. */
  function SliceIndex(k: int, n: nat): (i: nat)
    ensures i <= n
  {
    if k < 0 then (if n + k < 0 then 0 else n + k)
    else if k > n then n
    else k
  }

  /** `s.slice(start, end)`; empty when the end position is not past the
      start position. */
  function Slice<T>(s: seq<T>, start: int, end: int): (r: seq<T>)
    ensures 0 <= start <= end ==> r == s[Min(start, |s|)..Min(end, |s|)]
    ensures 0 <= start && 0 <= end ==> |r| <= (if start <= end then end - start else 0)
  {
    var from := SliceIndex(start, |s|);
    var to := SliceIndex(end, |s|);
    if from < to then s[from..to] else []
  }

  /** The posts shown on page `page` (pages count from 1). */
  function CurrentPosts<T>(posts: seq<T>, page: int): (r: seq<T>)
    ensures 1 <= page ==>
      r == posts[Min((page - 1) * PostsPerPage, |posts|)..Min(page * PostsPerPage, |posts|)]
    ensures 1 <= page ==> |r| <= PostsPerPage
    ensures 1 <= page ==>
      forall j :: 0 <= j < |r| ==> (page - 1) * PostsPerPage + j < |posts| && r[j] == posts[(page - 1) * PostsPerPage + j]
  {
    var indexOfLastPost := page * PostsPerPage;
    var indexOfFirstPost := indexOfLastPost - PostsPerPage;
    Slice(posts, indexOfFirstPost, indexOfLastPost)
  }

  /** `Math.ceil(n / 6)`: the fewest pages of six that hold n posts. */
  function TotalPages(n: nat): (t: nat)
    ensures n <= t * PostsPerPage < n + PostsPerPage
    ensures t == 0 <==> n == 0
  {
    (n + PostsPerPage - 1) / PostsPerPage
  }

  /** Every page before the last is full, and every page up to the last holds
      at least one post. */
  lemma PageSizes<T>(posts: seq<T>, page: int)
    requires 1 <= page <= TotalPages(|posts|)
    ensures 1 <= |CurrentPosts(posts, page)|
    ensures page < TotalPages(|posts|) ==> |CurrentPosts(posts, page)| == PostsPerPage
  {
  }

  /** Pages past the last one are empty. */
  lemma PagesPastTheEndEmpty<T>(posts: seq<T>, page: int)
    requires page > TotalPages(|posts|)
    ensures CurrentPosts(posts, page) == []
  {
  }

  /** Pages 1 .. count of `posts`, concatenated in order. */
  function Concat<T>(posts: seq<T>, count: nat): seq<T>
    decreases count
  {
    if count == 0 then [] else Concat(posts, count - 1) + CurrentPosts(posts, count)
  }

  /** The first k pages together are the first min(6k, n) posts. */
  lemma {:induction false} ConcatIsPrefix<T>(posts: seq<T>, k: nat)
    ensures Concat(posts, k) == posts[..Min(k * PostsPerPage, |posts|)]
    decreases k
  {
    if k > 0 {
      ConcatIsPrefix(posts, k - 1);
      var a := Min((k - 1) * PostsPerPage, |posts|);
      var b := Min(k * PostsPerPage, |posts|);
      assert posts[..a] + posts[a..b] == posts[..b];
    }
  }

  /** All pages, first to last, give back the whole list in order. */
  lemma PagesReassemble<T>(posts: seq<T>)
    ensures Concat(posts, TotalPages(|posts|)) == posts
  {
    ConcatIsPrefix(posts, TotalPages(|posts|));
    assert posts[..|posts|] == posts;
  }

  /** Page `page` covers positions [(page - 1) * 6, page * 6). */
  predicate OnPage(i: int, page: int) {
    1 <= page && (page - 1) * PostsPerPage <= i < page * PostsPerPage
  }

  /** Each post lies on exactly one page, page i / 6 + 1, which is a page that
      exists and shows that post. */
  lemma EachPostOnExactlyOnePage<T>(posts: seq<T>, i: nat)
    requires i < |posts|
    ensures forall page :: OnPage(i, page) <==> page == i / PostsPerPage + 1
    ensures i / PostsPerPage + 1 <= TotalPages(|posts|)
    ensures i % PostsPerPage < |CurrentPosts(posts, i / PostsPerPage + 1)|
    ensures CurrentPosts(posts, i / PostsPerPage + 1)[i % PostsPerPage] == posts[i]
  {
    var p := i / PostsPerPage + 1;
    assert (p - 1) * PostsPerPage + i % PostsPerPage == i;
  }

  /** What the listing shows: the "no posts yet" card, or a grid of posts with
      the page buttons under it. */
  datatype BlogView<T> = NoPostsNotice | PostGrid(shown: seq<T>, pageButtons: seq<int>)

  /** Renders the listing for the current page. The buttons are
      `Array.from({ length: totalPages }, (_, i) => i + 1)`, drawn only when
      there is more than one page. */
  method Render<T>(posts: seq<T>, currentPage: int) returns (v: BlogView<T>)
    ensures v.NoPostsNotice? <==> CurrentPosts(posts, currentPage) == []
    ensures v.PostGrid? ==> v.shown == CurrentPosts(posts, currentPage)
    ensures v.PostGrid? && TotalPages(|posts|) <= 1 ==> v.pageButtons == []
    ensures v.PostGrid? && TotalPages(|posts|) > 1 ==>
      |v.pageButtons| == TotalPages(|posts|) &&
      forall j :: 0 <= j < |v.pageButtons| ==> v.pageButtons[j] == j + 1
    ensures v.PostGrid? ==>
      forall j, k :: 0 <= j < k < |v.pageButtons| ==> v.pageButtons[j] < v.pageButtons[k]
    ensures 1 <= currentPage <= TotalPages(|posts|) || currentPage == 1 ==>
      (v.NoPostsNotice? <==> |posts| == 0)
  {
    var currentPosts := CurrentPosts(posts, currentPage);
    var totalPages := TotalPages(|posts|);
    if |currentPosts| == 0 {
      if 1 <= currentPage <= totalPages {
        PageSizes(posts, currentPage);
      }
      return NoPostsNotice;
    }
    var buttons: seq<int> := [];
    if totalPages > 1 {
      var i := 0;
      while i < totalPages
        invariant 0 <= i <= totalPages
        invariant |buttons| == i
        invariant forall j :: 0 <= j < i ==> buttons[j] == j + 1
      {
        buttons := buttons + [i + 1];
        i := i + 1;
      }
    }
    v := PostGrid(currentPosts, buttons);
  }
}
