/** The explore page (components/ExploreView.tsx): a case-insensitive
    substring search over post text, author name and author handle. */
module ExploreView {
  import opened Util
  import opened Types

  /** The search test: the lower-cased query occurs in the lower-cased
      content, author name or author handle. */
  predicate Hit(query: string, p: Post) {
    Includes(Lower(p.content), Lower(query))
    || Includes(Lower(p.authorName), Lower(query))
    || Includes(Lower(p.authorHandle), Lower(query))
  }

  function Matches(query: string): Post -> bool {
    (p: Post) => Hit(query, p)
  }

  /** filteredPosts: the matching posts, in feed order. */
  function FilteredPosts(posts: seq<Post>, query: string): (r: seq<Post>)
    ensures forall p :: p in r <==> (p in posts && Hit(query, p))
    ensures Subsequence(r, posts)
  {
    FilterSubsequence(posts, Matches(query));
    Filter(posts, Matches(query))
  }

  /** The empty query keeps every post. */
  lemma EmptyQueryKeepsAll(posts: seq<Post>)
    ensures FilteredPosts(posts, "") == posts
  {
    forall k | 0 <= k < |posts| ensures Matches("")(posts[k]) {
      IncludesEmpty(Lower(posts[k].content));
    }
    FilterAll(posts, Matches(""));
  }

  /** Queries that differ only in letter case find the same posts. */
  lemma CaseInsensitiveQuery(posts: seq<Post>, q1: string, q2: string)
    requires Lower(q1) == Lower(q2)
    ensures FilteredPosts(posts, q1) == FilteredPosts(posts, q2)
  {
    FilterCongruent(posts, Matches(q1), Matches(q2));
  }

  /** In particular a query and its lower-cased form find the same posts. */
  lemma LowerCaseQuery(posts: seq<Post>, query: string)
    ensures FilteredPosts(posts, Lower(query)) == FilteredPosts(posts, query)
  {
    LowerIdempotent(query);
    CaseInsensitiveQuery(posts, Lower(query), query);
  }
}
