/**
 * The rows the pages read from and write to the hosted tables. Field names
 * follow the table columns, except that the posts column `type` is
 * `post_type` because `type` is a Dafny keyword; a field the JavaScript reads
 * as possibly null is an Option.
 */
module Entities {
  import opened Wrappers

  /** A row key. Rows come back from the database with a non-empty id, so an id is always truthy. */
  type Id = s: string | s != [] witness "id"

  /** A row of the posts table. */
  datatype Post = Post(
    id: Id,
    title: string,
    content: string,
    post_type: string,
    status: string,
    tags: Option<seq<string>>,
    is_favorite: bool)

  /** A row of the ideas table. */
  datatype Idea = Idea(
    id: Id,
    title: string,
    content: Option<string>,
    color: string,
    tags: Option<seq<string>>,
    is_pinned: bool,
    is_archived: bool)

  /** A row of the photos table. */
  datatype Photo = Photo(
    id: Id,
    image_url: string,
    caption: Option<string>,
    album: string,
    is_favorite: bool)

  /** A row of the moods table; `mood_date` is its "yyyy-MM-dd" key. */
  datatype Mood = Mood(
    mood_date: string,
    mood_type: string,
    mood_intensity: int,
    note: Option<string>,
    color: string)
}
