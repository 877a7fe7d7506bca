/**
 * Selection of a user's new status posts: the posts of the feed are taken
 * while they are newer than a watermark, and of those only the status
 * posts are kept. `logicfeed.py` and `logicfeed/console/tasks.py` define
 * the same `get_posts`; both are this module's `GetPosts`.
 *
 * The feed is what the social network returns for a request path; its
 * retrieval is the parameter `fetch`.
 */
module PostSelection {

  /** A post's creation time; any totally ordered representation will do. */
  type Timestamp = int

  /** The fields of a post that selection looks at, plus its id and text. */
  datatype Post = Post(id: string, createdTime: Timestamp, kind: string, message: string)

  predicate IsNewer(post: Post, since: Timestamp)
  {
    post.createdTime > since
  }

  predicate IsStatus(post: Post)
  {
    post.kind == "status"
  }

  /** `a` is `b` with some elements left out, the rest in their order. */
  predicate IsSubsequence(a: seq<Post>, b: seq<Post>)
  {
    if a == [] then true
    else if b == [] then false
    else if a[0] == b[0] then IsSubsequence(a[1..], b[1..])
    else IsSubsequence(a, b[1..])
  }

  /** The request path of a user's posts. */
  function RequestPath(userId: string): string
  {
    "/" + userId + "/posts"
  }

  /**
   * `takewhile(is_post_after, feed)`: the longest prefix of the feed whose
   * posts are all newer than `since`.
   */
  function NewerPrefix(feed: seq<Post>, since: Timestamp): (r: seq<Post>)
    ensures |r| <= |feed| && r == feed[..|r|]
    ensures forall k :: 0 <= k < |r| ==> IsNewer(r[k], since)
    ensures |r| < |feed| ==> !IsNewer(feed[|r|], since)
  {
    if feed == [] || !IsNewer(feed[0], since) then []
    else [feed[0]] + NewerPrefix(feed[1..], since)
  }

  /** `filter(is_status, posts)`. */
  function Statuses(posts: seq<Post>): (r: seq<Post>)
    ensures forall p :: p in r ==> IsStatus(p) && p in posts
    ensures forall p :: p in posts && IsStatus(p) ==> p in r
  {
    if posts == [] then []
    else if IsStatus(posts[0]) then [posts[0]] + Statuses(posts[1..])
    else Statuses(posts[1..])
  }

  /** The status posts of the newer prefix of `feed`. */
  function Select(feed: seq<Post>, since: Timestamp): seq<Post>
  {
    Statuses(NewerPrefix(feed, since))
  }

  /**
   * `get_posts(userid, since)`: every post returned is a status newer than
   * `since` and comes from the user's feed, in feed order.
   */
  function GetPosts(fetch: string -> seq<Post>, userId: string, since: Timestamp): (r: seq<Post>)
    ensures forall p :: p in r ==> IsStatus(p) && IsNewer(p, since)
    ensures IsSubsequence(r, NewerPrefix(fetch(RequestPath(userId)), since))
    ensures IsSubsequence(r, fetch(RequestPath(userId)))
    ensures forall p :: p in NewerPrefix(fetch(RequestPath(userId)), since) && IsStatus(p) ==> p in r
  {
    var feed := fetch(RequestPath(userId));
    SelectIsSubsequence(feed, since);
    Select(feed, since)
  }

  // ---------------------------------------------------------------------
  // Properties of the selection
  // ---------------------------------------------------------------------

  lemma {:induction false} StatusesSubsequence(posts: seq<Post>)
    ensures IsSubsequence(Statuses(posts), posts)
  {
    if posts != [] {
      StatusesSubsequence(posts[1..]);
    }
  }

  /** `filter` keeps each status post as many times as it occurs, and no other post. */
  lemma {:induction false} StatusesMultiplicity(posts: seq<Post>)
    ensures forall q :: multiset(Statuses(posts))[q] == (if IsStatus(q) then multiset(posts)[q] else 0)
  {
    if posts != [] {
      StatusesMultiplicity(posts[1..]);
      assert posts == [posts[0]] + posts[1..];
    }
  }

  lemma {:induction false} SubsequenceOfLonger(a: seq<Post>, b: seq<Post>, c: seq<Post>)
    requires IsSubsequence(a, b)
    ensures IsSubsequence(a, b + c)
  {
    if a != [] {
      assert (b + c)[1..] == b[1..] + c;
      if a[0] == b[0] {
        SubsequenceOfLonger(a[1..], b[1..], c);
      } else {
        SubsequenceOfLonger(a, b[1..], c);
      }
    }
  }

  /**
   * The selection is an order-preserving subsequence of the newer prefix,
   * and so of the whole feed; it holds every status post of that prefix.
   */
  lemma SelectIsSubsequence(feed: seq<Post>, since: Timestamp)
    ensures IsSubsequence(Select(feed, since), NewerPrefix(feed, since))
    ensures IsSubsequence(Select(feed, since), feed)
    ensures forall p :: p in NewerPrefix(feed, since) && IsStatus(p) ==> p in Select(feed, since)
  {
    var prefix := NewerPrefix(feed, since);
    StatusesSubsequence(prefix);
    SubsequenceOfLonger(Select(feed, since), prefix, feed[|prefix|..]);
    assert prefix + feed[|prefix|..] == feed;
  }

  /**
   * A post that is not newer than `since` ends the selection: nothing at
   * or after it is looked at, even if later posts are newer.
   */
  lemma {:induction false} OldPostEndsSelection(feed: seq<Post>, since: Timestamp, j: nat)
    requires j < |feed| && !IsNewer(feed[j], since)
    ensures NewerPrefix(feed, since) == NewerPrefix(feed[..j], since)
    ensures Select(feed, since) == Select(feed[..j], since)
  {
    if j > 0 && IsNewer(feed[0], since) {
      OldPostEndsSelection(feed[1..], since, j - 1);
      assert feed[1..][..j - 1] == feed[..j][1..];
    }
  }

  /** A newer status behind an old post is not selected. */
  lemma NewerPostBehindOldIsSkipped()
    ensures Select([Post("1", 30, "status", "a"), Post("2", 10, "status", "b"),
                    Post("3", 40, "status", "c")], 20)
            == [Post("1", 30, "status", "a")]
  {
    var feed := [Post("1", 30, "status", "a"), Post("2", 10, "status", "b"),
                 Post("3", 40, "status", "c")];
    assert feed[1..][0] == Post("2", 10, "status", "b");
    assert NewerPrefix(feed, 20) == [feed[0]];
  }

  /** Newest-first order of a feed. */
  predicate NewestFirst(feed: seq<Post>)
  {
    forall i, j :: 0 <= i < j < |feed| ==> feed[j].createdTime <= feed[i].createdTime
  }

  /** In a newest-first feed the first selected post is the newest one selected. */
  lemma {:induction false} FirstSelectedIsNewest(posts: seq<Post>)
    requires NewestFirst(posts)
    ensures var r := Statuses(posts);
      forall k :: 0 <= k < |r| ==> r[k].createdTime <= r[0].createdTime
  {
    if posts != [] {
      var tail := posts[1..];
      assert NewestFirst(tail);
      FirstSelectedIsNewest(tail);
      if IsStatus(posts[0]) {
        var r := Statuses(posts);
        forall k | 0 <= k < |r| ensures r[k].createdTime <= r[0].createdTime {
          if k > 0 {
            assert r[k] in Statuses(tail);
            var m :| 0 <= m < |tail| && tail[m] == r[k];
            assert tail[m] == posts[m + 1];
          }
        }
      }
    }
  }

  /** The newer prefix of a newest-first feed is itself newest-first. */
  lemma PrefixNewestFirst(feed: seq<Post>, since: Timestamp)
    requires NewestFirst(feed)
    ensures NewestFirst(NewerPrefix(feed, since))
  {
    var prefix := NewerPrefix(feed, since);
    assert forall i :: 0 <= i < |prefix| ==> prefix[i] == feed[i];
  }
}
