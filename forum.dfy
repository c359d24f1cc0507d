/**
 * The discussion forum (components/Forum.tsx): liking a post and publishing a new
 * one from the draft and the selected media.
 */
module Forum {
  import opened Wrappers
  import opened Records
  import opened Text
  import opened Lists

  /** A post after a like: the flag flips and the count moves towards it by one. */
  function LikedPost(p: Post): (q: Post)
    ensures q.isLiked == !p.isLiked
    ensures q.likes == (if p.isLiked then p.likes - 1 else p.likes + 1)
    ensures q.(isLiked := p.isLiked, likes := p.likes) == p
  {
    p.(isLiked := !p.isLiked, likes := if p.isLiked then p.likes - 1 else p.likes + 1)
  }

  /** `handleLike`: every post with this id is liked or unliked; every other post stays as it is. */
  function Liked(posts: seq<Post>, id: string): (r: seq<Post>)
    ensures |r| == |posts|
    ensures forall i :: 0 <= i < |posts| ==> r[i] == if posts[i].id == id then LikedPost(posts[i]) else posts[i]
  {
    seq(|posts|, i requires 0 <= i < |posts| => if posts[i].id == id then LikedPost(posts[i]) else posts[i])
  }

  /** Liking the same post twice restores every post, its like count and flag included. */
  lemma LikeTwiceRestores(posts: seq<Post>, id: string)
    ensures Liked(Liked(posts, id), id) == posts
  {
    var twice := Liked(Liked(posts, id), id);
    forall i | 0 <= i < |posts| ensures twice[i] == posts[i] {
      if posts[i].id == id {
        assert LikedPost(LikedPost(posts[i])) == posts[i];
      }
    }
  }

  /** The likes over all posts. */
  function TotalLikes(posts: seq<Post>): int {
    if posts == [] then 0 else posts[0].likes + TotalLikes(posts[1..])
  }

  /**
   * Across the feed, a like adds one for each post with this id that was not liked
   * and takes one off for each that was: with distinct ids, exactly one either way.
   */
  lemma {:induction false} LikeShiftsTotal(posts: seq<Post>, id: string)
    ensures TotalLikes(Liked(posts, id))
      == TotalLikes(posts) + Count(posts, (p: Post) => p.id == id && !p.isLiked)
         - Count(posts, (p: Post) => p.id == id && p.isLiked)
  {
    if posts != [] {
      LikeShiftsTotal(posts[1..], id);
      assert Liked(posts, id)[1..] == Liked(posts[1..], id);
    }
  }

  /** A post can be published: the trimmed draft is not empty, or some media is selected. */
  predicate Publishable(draft: string, media: seq<PostMedia>) {
    Trim(draft) != "" || |media| > 0
  }

  /**
   * The published post: the author's name and avatar, the untrimmed draft, tag
   * 'General', date 'Just now', no likes and no comments, not liked, the id the
   * clock's millisecond count written in decimal, and media only when some is selected.
   */
  function Published(author: User, draft: string, media: seq<PostMedia>, now: nat): (p: Post)
    ensures p.id == NatToString(now) && DigitsValue(p.id) == now
    ensures p.authorName == author.name && p.authorAvatar == author.avatar && p.content == draft
    ensures p.tag == "General" && p.date == "Just now" && p.likes == 0 && p.comments == 0 && !p.isLiked
    ensures p.media.Some? <==> |media| > 0
    ensures p.media.Some? ==> p.media.value == media
  {
    NatToStringRoundTrip(now);
    Post(NatToString(now), author.name, author.avatar, draft, "General", "Just now", 0, 0, false,
         if |media| > 0 then Some(media) else None)
  }

  /** The forum's state for the signed-in author. */
  class ForumBoard {
    const author: User
    var posts: seq<Post>
    var newPostContent: string
    var selectedMedia: seq<PostMedia>
    var isPosting: bool

    constructor(author: User, saved: seq<Post>)
      ensures this.author == author && posts == saved && newPostContent == "" && selectedMedia == [] && !isPosting
    {
      this.author := author;
      posts := saved;
      newPostContent := "";
      selectedMedia := [];
      isPosting := false;
    }

    method Like(id: string)
      modifies this`posts
      ensures posts == Liked(old(posts), id)
    {
      posts := Liked(posts, id);
    }

    /**
     * `handleCreatePost`: nothing when there is neither text nor media; otherwise the
     * post goes in front of the unchanged feed, the draft and the media are cleared,
     * and the posting flag is up until `PostingSettled`.
     */
    method CreatePost(now: nat)
      modifies this
      ensures !Publishable(old(newPostContent), old(selectedMedia)) ==>
        posts == old(posts) && newPostContent == old(newPostContent) && selectedMedia == old(selectedMedia)
        && isPosting == old(isPosting)
      ensures Publishable(old(newPostContent), old(selectedMedia)) ==>
        posts == [Published(author, old(newPostContent), old(selectedMedia), now)] + old(posts)
        && newPostContent == "" && selectedMedia == [] && isPosting
    {
      if Trim(newPostContent) == "" && |selectedMedia| == 0 {
        return;
      }
      isPosting := true;
      var post := Published(author, newPostContent, selectedMedia, now);
      posts := [post] + posts;
      newPostContent := "";
      selectedMedia := [];
    }

    /** The delayed reset of the posting flag. */
    method PostingSettled()
      modifies this`isPosting
      ensures !isPosting
    {
      isPosting := false;
    }
  }
}
