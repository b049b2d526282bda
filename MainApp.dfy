/**
 * The dashboard's counters: how many posts, published posts, photos, moods
 * and active (not archived) ideas the four tables hold.
 */
module MainApp {
  import opened Wrappers
  import opened Lists
  import opened Entities

  datatype Stats = Stats(totalPosts: nat, publishedPosts: nat, photos: nat, moods: nat, ideas: nat)

  /** The counters before the first load. */
  function InitialStats(): (s: Stats)
    ensures s.totalPosts == 0 && s.publishedPosts == 0 && s.photos == 0 && s.moods == 0 && s.ideas == 0
  {
    Stats(0, 0, 0, 0, 0)
  }

  function IsPublished(p: Post): bool {
    p.status == "published"
  }

  function IsUnpublished(p: Post): bool {
    p.status != "published"
  }

  function IsActive(i: Idea): bool {
    !i.is_archived
  }

  function IsArchived(i: Idea): bool {
    i.is_archived
  }

  /** The counters computed from the four fetched lists. */
  function ComputeStats(posts: seq<Post>, photos: seq<Photo>, moods: seq<Mood>, ideas: seq<Idea>): (s: Stats)
    ensures s.totalPosts == |posts| && s.photos == |photos| && s.moods == |moods|
    ensures s.publishedPosts == |Filter(posts, IsPublished)| <= s.totalPosts
    ensures s.ideas == |Filter(ideas, IsActive)| <= |ideas|
  {
    Stats(|posts|, |Filter(posts, IsPublished)|, |photos|, |moods|, |Filter(ideas, IsActive)|)
  }

  /**
   * loadStats: the four fetches are awaited together, so the counters are
   * replaced only when every fetch succeeds; otherwise they stay.
   */
  function StatsAfterLoad(current: Stats, posts: Option<seq<Post>>, photos: Option<seq<Photo>>,
                          moods: Option<seq<Mood>>, ideas: Option<seq<Idea>>): (s: Stats)
    ensures (posts.Some? && photos.Some? && moods.Some? && ideas.Some?) ==>
      s == ComputeStats(posts.value, photos.value, moods.value, ideas.value)
    ensures !(posts.Some? && photos.Some? && moods.Some? && ideas.Some?) ==> s == current
  {
    if posts.Some? && photos.Some? && moods.Some? && ideas.Some? then
      ComputeStats(posts.value, photos.value, moods.value, ideas.value)
    else current
  }

  /** The published count is the total exactly when every post is published. */
  lemma AllPublishedIff(posts: seq<Post>, photos: seq<Photo>, moods: seq<Mood>, ideas: seq<Idea>)
    ensures var s := ComputeStats(posts, photos, moods, ideas);
      s.publishedPosts == s.totalPosts <==> forall i :: 0 <= i < |posts| ==> posts[i].status == "published"
  {
    FilterKeepsAllIff(posts, IsPublished);
  }

  /** Published and unpublished posts add up to the total; active and archived ideas add up to the fetched ideas. */
  lemma CountsPartition(posts: seq<Post>, photos: seq<Photo>, moods: seq<Mood>, ideas: seq<Idea>)
    ensures var s := ComputeStats(posts, photos, moods, ideas);
      s.publishedPosts + |Filter(posts, IsUnpublished)| == s.totalPosts
      && s.ideas + |Filter(ideas, IsArchived)| == |ideas|
  {
    FilterSplit(posts, IsPublished, IsUnpublished);
    FilterSplit(ideas, IsActive, IsArchived);
  }
}
