/**
 * The like buttons of the landing page's photo gallery. `likedPhotos` is a
 * set of gallery indices; a click toggles its index, and only a click that
 * likes (not one that unlikes) spawns a floating heart at the click position.
 */
module Likes {
  import opened Wrappers
  import Effects

  /** The set after a click on photo `index`: the index is removed when present and added when absent. */
  function Toggle(liked: set<nat>, index: nat): (r: set<nat>)
    ensures index in r <==> index !in liked
    ensures forall j :: j != index ==> (j in r <==> j in liked)
  {
    if index in liked then liked - {index} else liked + {index}
  }

  /** Clicking the same like button twice leaves the set as it was. */
  lemma ToggleTwice(liked: set<nat>, index: nat)
    ensures Toggle(Toggle(liked, index), index) == liked
  {
    var once := Toggle(liked, index);
    var twice := Toggle(once, index);
    forall j ensures j in twice <==> j in liked {
      if j == index {
        assert (j in twice) == (j !in once);
      }
    }
  }

  /** The gallery state of the landing page, updated in place by `handleLike`. */
  class LikeBoard {
    var likedPhotos: set<nat>

    constructor ()
      ensures likedPhotos == {}
    {
      likedPhotos := {};
    }

    /**
     * handleLike: toggle photo `index`; when the photo becomes liked, create
     * a heart at (x, y) that is removed 1000 ms after `now`.
     */
    method HandleLike(index: nat, x: int, y: int, now: nat) returns (heart: Option<Effects.Particle>)
      modifies this
      ensures likedPhotos == Toggle(old(likedPhotos), index)
      ensures heart.Some? <==> index !in old(likedPhotos)
      ensures heart.Some? ==> heart.value == Effects.LikeHeartAt(x, y, now)
    {
      var newLiked := likedPhotos;
      if index in newLiked {
        newLiked := newLiked - {index};
        heart := None;
      } else {
        newLiked := newLiked + {index};
        heart := Some(Effects.LikeHeartAt(x, y, now));
      }
      likedPhotos := newLiked;
    }
  }
}
