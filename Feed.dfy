/**
 * The feed of posts: a status/favourite filter, delete and favourite
 * buttons, and each card's 150-character excerpt and first three tags.
 */
module Feed {
  import opened Wrappers
  import opened Lists
  import opened Entities

  /** Whether a post passes the selected filter; "all" and any value the switch does not name let every post through. */
  function Matches(filter: string, post: Post): bool {
    if filter == "all" then true
    else if filter == "published" then post.status == "published"
    else if filter == "draft" then post.status == "draft"
    else if filter == "favorite" then post.is_favorite
    else true
  }

  /** `filteredPosts`: the posts that pass the filter, in feed order. */
  function FilteredPosts(posts: seq<Post>, filter: string): (r: seq<Post>)
    ensures Subsequence(r, posts)
    ensures forall i :: 0 <= i < |r| ==> r[i] in posts && Matches(filter, r[i])
    ensures forall i :: 0 <= i < |posts| && Matches(filter, posts[i]) ==> posts[i] in r
  {
    FilterIsSubsequence(posts, p => Matches(filter, p));
    FilterMembers(posts, p => Matches(filter, p));
    Filter(posts, p => Matches(filter, p))
  }

  /** "all", and any filter other than the three named ones, shows every post. */
  lemma UnfilteredShowsAll(posts: seq<Post>, filter: string)
    requires filter != "published" && filter != "draft" && filter != "favorite"
    ensures FilteredPosts(posts, filter) == posts
  {
    FilterAllPass(posts, p => Matches(filter, p));
  }

  /** "published", "draft" and "favorite" show exactly the posts with that status or with the favourite flag. */
  lemma NamedFiltersExact(posts: seq<Post>, p: Post)
    requires p in posts
    ensures p in FilteredPosts(posts, "published") <==> p.status == "published"
    ensures p in FilteredPosts(posts, "draft") <==> p.status == "draft"
    ensures p in FilteredPosts(posts, "favorite") <==> p.is_favorite
  {
    var i :| 0 <= i < |posts| && posts[i] == p;
    forall f | f == "published" || f == "draft" || f == "favorite"
      ensures p in FilteredPosts(posts, f) <==> Matches(f, p)
    {
      var r := FilteredPosts(posts, f);
      if p in r {
        var j :| 0 <= j < |r| && r[j] == p;
      }
    }
  }

  function PostId(p: Post): Id {
    p.id
  }

  /** The feed after a delete: the post with that id is gone, the others stay in order. */
  function RemovePost(posts: seq<Post>, id: Id): (r: seq<Post>)
    ensures forall i :: 0 <= i < |r| ==> r[i].id != id && r[i] in posts
    ensures forall i :: 0 <= i < |posts| && posts[i].id != id ==> posts[i] in r
    ensures Subsequence(r, posts)
  {
    RemoveKey(posts, PostId, id)
  }

  /** The feed after a favourite toggle: the matching post's flag becomes `!currentValue`; nothing else changes. */
  function SetFavorite(posts: seq<Post>, id: Id, currentValue: bool): (r: seq<Post>)
    ensures |r| == |posts|
    ensures forall i :: 0 <= i < |posts| ==>
      r[i] == if posts[i].id == id then posts[i].(is_favorite := !currentValue) else posts[i]
  {
    MapWhere(posts, (p: Post) => p.id == id, (p: Post) => p.(is_favorite := !currentValue))
  }

  /** After marking a post favourite (current value false) it shows under the "favorite" filter, and after unmarking it does not. */
  lemma FavoriteShowsUnderFilter(posts: seq<Post>, id: Id, currentValue: bool, i: nat)
    requires i < |posts| && posts[i].id == id
    ensures var r := SetFavorite(posts, id, currentValue);
      r[i] in FilteredPosts(r, "favorite") <==> !currentValue
  {
    var r := SetFavorite(posts, id, currentValue);
    NamedFiltersExact(r, r[i]);
  }

  const ExcerptLength: nat := 150

  /** A card's excerpt: the first 150 characters, with "..." exactly when the content is longer. */
  function Excerpt(content: string): (r: string)
    ensures |content| <= ExcerptLength ==> r == content
    ensures |content| > ExcerptLength ==> r == content[..ExcerptLength] + "..."
    ensures |r| <= ExcerptLength + 3
  {
    (if |content| <= ExcerptLength then content else content[..ExcerptLength])
      + (if |content| > ExcerptLength then "..." else "")
  }

  /**
   * The excerpt starts with the content's first (up to) 150 characters, and
   * it shows the whole content exactly when that fits or when the content is
   * 150 characters followed by "..." already.
   */
  lemma ExcerptIsPrefix(content: string)
    ensures var r := Excerpt(content);
      var n := if |content| <= ExcerptLength then |content| else ExcerptLength;
      r[..n] == content[..n]
      && (r == content <==> |content| <= ExcerptLength || content[ExcerptLength..] == "...")
  {
    var r := Excerpt(content);
    if |content| > ExcerptLength {
      assert r[..ExcerptLength] == content[..ExcerptLength];
      assert r[ExcerptLength..] == "...";
      if content[ExcerptLength..] == "..." {
        assert content == content[..ExcerptLength] + content[ExcerptLength..];
      }
    }
  }

  /** The tag chips on a card: at most the first three tags, none when the post has no tags. */
  function ShownTags(tags: Option<seq<string>>): (r: seq<string>)
    ensures tags.None? ==> r == []
    ensures tags.Some? ==> |r| == (if |tags.value| < 3 then |tags.value| else 3) && r == tags.value[..|r|]
  {
    if tags.Some? && |tags.value| > 0 then tags.value[..if |tags.value| < 3 then |tags.value| else 3] else []
  }

  /** The feed page; the loading flag is left out. */
  class FeedPage {
    var posts: seq<Post>
    var filter: string

    constructor ()
      ensures posts == [] && filter == "all"
    {
      posts := [];
      filter := "all";
    }

    /** The cards shown. */
    function Shown(): seq<Post>
      reads this
    {
      FilteredPosts(posts, filter)
    }

    method LoadPosts(fetched: Option<seq<Post>>)
      modifies this
      ensures posts == (if fetched.Some? then fetched.value else old(posts)) && filter == old(filter)
    {
      if fetched.Some? {
        posts := fetched.value;
      }
    }

    method SetFilter(f: string)
      modifies this
      ensures filter == f && posts == old(posts)
    {
      filter := f;
    }

    method HandleDelete(id: Id, confirmed: bool, succeeded: bool)
      modifies this
      ensures posts == (if confirmed && succeeded then RemovePost(old(posts), id) else old(posts)) && filter == old(filter)
    {
      if confirmed && succeeded {
        posts := RemovePost(posts, id);
      }
    }

    method HandleToggleFavorite(id: Id, currentValue: bool, succeeded: bool)
      modifies this
      ensures posts == (if succeeded then SetFavorite(old(posts), id, currentValue) else old(posts)) && filter == old(filter)
    {
      if succeeded {
        posts := SetFavorite(posts, id, currentValue);
      }
    }
  }
}
