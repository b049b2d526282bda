# A model of a personal-site React front end

The application is a small React site over a hosted database. Its landing
page (`src/App.jsx`) has:

- a typewriter greeting;
- a photo gallery with like buttons that release a floating heart;
- a YES button that starts a timed, four-stage celebration overlay with
  confetti, fireworks, a heart explosion and a sparkle shower.

Behind a login, six pages manage content:

- an ideas notebook;
- a post editor;
- a post feed with filters;
- a photo gallery;
- a mood tracker with a month calendar;
- a dashboard of counts.

This project models the client-side state logic of those files in Dafny.
Each page is a class whose fields are its state variables. Each event
handler is a method. A handler's remote call becomes a parameter that gives
its outcome: `succeeded`, `confirmed`, or the fetched list as an `Option`.

The list, tag and form transforms are pure functions. Each one has lemmas
saying which entries change and that the order of the rest is kept.

The celebration is a millisecond clock with a queue of pending stage timers,
modelled two ways:

- `Celebration.Config`, `Click`, `Dismiss` and `Step` give a value-level
  semantics.
- A class, `Celebration.Sequencer`, has methods proved to follow those
  functions.

Particles are records with a spawn time and a removal time. They are not
DOM nodes.

Modules:

- `Wrappers`: `Option`.
- `Lists`: filter, map-where and find-first on sequences, with their lemmas.
- `Text`: JavaScript's `trim`.
- `Entities`: the database rows.
- `Tags`: the shared tag list.
- `Effects`: the particle batches.
- `Celebration`: the stage sequencer and the stage panels.
- `Likes`: the liked-photo set.
- `Typewriter`: the greeting.
- `Ideas`, `Editor`, `Feed`, `Gallery`, `MoodTracker` and `MainApp`: the pages.

Where the code and its documented intent differ, the model follows the code:

- `handleYesClick` has no guard against a second click. A click during a
  celebration schedules a second chain of stage timers next to the first one.
- Close does not cancel pending stage timers. A timer scheduled before Close
  can raise the stage again while the overlay is hidden
  (`Celebration.TimerRaisesStageAfterClose`, `Celebration.RetriggerThenClose`).
- The fallback modal's condition, `showCelebration && celebrationStage === 0`,
  can never hold in a reachable state (`Celebration.FallbackNeverActive`).
- The typewriter cuts its text by UTF-16 code unit. Between 1200 and 1300 ms
  the shown text ends in half of the heart emoji's surrogate pair
  (`Typewriter.TypedTextWellFormed`).
- After a caption is saved, the gallery's open viewer keeps showing the old
  photo object. `selectedPhoto` is not refreshed
  (`Gallery.GalleryPage.HandleUpdateCaption`).

## Model

| member | source | states |
|---|---|---|
| Celebration.ConsistentPreserved | src/App.jsx:77-89 | Page load, a YES click, Close and the passing of time all keep the invariant: pending timers are in the future and set stages 2..4, the stage is at most 4, and a shown overlay has a stage of at least 1 |
| Celebration.Click | src/App.jsx:77-89 | A click shows the overlay at stage 1 without moving the clock. It keeps the pending timers and appends three that fire later and set stages 2, 3 and 4, and it keeps the spawned elements and appends the 455 of the four batches |
| Celebration.Dismiss | src/App.jsx:639-642 | Close hides the overlay and sets stage 0. The clock, the pending timers and the spawned elements are unchanged |
| Celebration.FireDue | src/App.jsx:86-88 | The stage after the timers due at one time run their callbacks in scheduling order. Its meaning (the last due timer decides) is stated by FireDueResult |
| Celebration.Step | src/App.jsx:86-88 | One millisecond advances the clock by one and leaves the overlay and the spawned elements as they were. The queue never grows |
| Celebration.Consistent | src/App.jsx:77-89 | The invariant of every reachable state. ConsistentPreserved proves it holds initially and is kept by each event |
| Celebration.FireDueResult | src/App.jsx:86-88 | With no timer due, the stage stays. Otherwise the stage is the one set by the last due timer in scheduling order |
| Celebration.QuietRun | src/App.jsx:86-88 | While no timer falls due, time passing moves only the clock |
| Celebration.RunToFiring | src/App.jsx:86-88 | Waiting until exactly one timer is due sets that timer's stage and removes it from the queue. The other timers stay in order |
| Celebration.ScheduledStage | src/App.jsx:86-88 | The stage schedule after a click is always in 1..4 |
| Celebration.ChainSchedule | src/App.jsx:86-88 | From the state a click leaves, the three chained timers give stage 1 before 2000 ms, 2 before 4500, 3 before 7000 and 4 afterwards, with the overlay shown |
| Celebration.ScheduleAfterClick | src/App.jsx:77-89 | After a YES click with nothing else pending, the overlay is shown and the stage follows the 0/2000/4500/7000 ms schedule |
| Celebration.StageNeverDecreases | src/App.jsx:77-89 | After a single click, the stage never goes down as time passes |
| Celebration.TimerRaisesStageAfterClose | src/App.jsx:639-642 | Close cancels nothing. Waiting for the next pending timer after Close raises the stage to 2..4 while the overlay stays hidden. Close is offered only at stage 4, when a single chain has no timer left, so a pending timer after Close needs a second click (as in RetriggerThenClose) |
| Celebration.RetriggerThenClose | src/App.jsx:77-89 | Second click at 4000 ms and Close at 7000 ms (stage 4): the second chain's timer sets stage 3 at 8500 ms with the overlay hidden |
| Celebration.FirstChainAt4000 | src/App.jsx:86-88 | 4000 ms after a click, the stage-3 and stage-4 timers are still pending, at +4500 and +7000 |
| Celebration.SecondChainFrom4000 | src/App.jsx:86-88 | With two interleaved chains pending, the timers fire in time order: stage 4 at +7000 and, after Close, stage 3 at +8500 |
| Celebration.PanelState | src/App.jsx:536-593 | The stage-N panel is rendered iff stage >= N. It is active iff stage == N, and exiting iff N < 4 and stage > N |
| Celebration.FallbackNeverActive | src/App.jsx:658 | In every reachable state the fallback modal is inactive and at most one stage panel is active |
| Celebration.RunDueTimers | src/App.jsx:86-88 | Walking the queue at time t gives the stage set by the due timers and keeps exactly the timers not yet due |
| Celebration.Sequencer.constructor | src/App.jsx:6-7 | The component starts hidden, at stage 0, with nothing pending |
| Celebration.Sequencer.YesClick | src/App.jsx:77-89 | The click shows stage 1, appends the four particle batches and schedules timers for stages 2, 3 and 4. It keeps the invariant |
| Celebration.Sequencer.Close | src/App.jsx:591-642 | Close, which only the stage-4 panel offers, hides the overlay and sets stage 0. It leaves the timers and particles in place and keeps the invariant |
| Celebration.Sequencer.Tick | src/App.jsx:86-88 | One millisecond: the clock advances and each timer due then fires in order and is discarded. It keeps the invariant |
| Effects.Batch | src/App.jsx:100-113 | A batch has one element per kind given. Its timing is stated by BatchTiming, and the loops are proved to produce it by SpawnStaggered |
| Effects.BatchTiming | src/App.jsx:100-113 | In every batch, each element is removed exactly `lifetime` after its one spawn. Spawns follow index order. The last element's removal, at start + stagger*(N-1) + lifetime, is the latest |
| Effects.LiveIff | src/App.jsx:112 | An element is on the page exactly from its spawn until its removal |
| Effects.BatchGone | src/App.jsx:112 | From a batch's last removal on, none of its elements is on the page |
| Effects.SpawnStaggered | src/App.jsx:100-113 | The batch loop creates element i at start + i*stagger and schedules its removal at lifetime later |
| Effects.CreateMassiveConfetti | src/App.jsx:91-115 | Exactly 300 confetti pieces. Piece i appears at +15i ms and is removed 6000 ms later |
| Effects.CreateFireworks | src/App.jsx:117-148 | Exactly 5 bursts at the five fixed positions. Burst i appears at +600i ms, holds exactly 30 sparks and is removed with them 2000 ms later |
| Effects.CreateHeartExplosion | src/App.jsx:150-167 | Exactly 50 hearts. Heart i appears at +30i ms and is removed 3000 ms later |
| Effects.CreateSparkleShower | src/App.jsx:169-183 | Exactly 100 sparkles. Sparkle i appears at +40i ms and is removed 4000 ms later |
| Effects.BatchLastRemovals | src/App.jsx:91-183 | The last removals are at +10485 (confetti), +4400 (fireworks), +4470 (hearts) and +7960 (sparkles) |
| Effects.CelebrationSceneClears | src/App.jsx:80-83 | After a click, celebration elements are on the page at every moment before +10485 ms and at none from then on |
| Effects.CelebrationEffects | src/App.jsx:80-83 | One click spawns 300 + 5 + 50 + 100 elements |
| Effects.LiveAt | src/App.jsx:112 | The elements on the page at a moment. LiveIff states that an element is among them exactly between its spawn and its removal |
| Effects.LikeHeartAt | src/App.jsx:201-209 | A like heart is placed at the click position and removed 1000 ms after it appears |
| Likes.Toggle | src/App.jsx:189-199 | The clicked index flips membership. Every other index keeps its membership |
| Likes.ToggleTwice | src/App.jsx:189-199 | Clicking the same like button twice restores the set |
| Likes.LikeBoard.constructor | src/App.jsx:10 | Nothing is liked at page load |
| Likes.LikeBoard.HandleLike | src/App.jsx:189-199 | The set is toggled at the index. A heart is created iff the photo was not liked before |
| Typewriter.TypedAt | src/App.jsx:19-31 | The text shown is always a prefix of the greeting, of length min(elapsed/100, 13) |
| Typewriter.TypewriterAt | src/App.jsx:19-31 | Running the interval for `elapsed` ms shows the first min(elapsed/100, 13) code units of the greeting. The subtitle appears iff elapsed >= 1400 + 300 and the button iff elapsed >= 1400 + 800 |
| Typewriter.TypedTextWellFormed | src/App.jsx:20-24 | The shown text is well-formed UTF-16 at every moment except from 1200 to 1300 ms, when it ends in a lone high surrogate |
| Typewriter.PrefixWellFormed | src/App.jsx:20 | A prefix of the greeting is well-formed iff it does not stop inside the surrogate pair |
| Text.IsSpace | src/pages/Ideas.jsx:110 | The white-space and line-terminator characters that JavaScript's `trim` removes |
| Text.LeadingSpaces | src/pages/Ideas.jsx:110 | Counts the white space at the front of a string: every counted character is white space, and the next one is not |
| Text.TrailingSpaces | src/pages/Ideas.jsx:110 | Counts the white space at the end of a string in the same way |
| Text.Trim | src/pages/Ideas.jsx:54 | `trim` returns a contiguous slice after the leading white space, followed only by white space. The slice neither starts nor ends with white space |
| Text.BlankIffAllSpace | src/pages/Ideas.jsx:54 | A string trims to empty exactly when every character is white space |
| Text.TrimIdempotent | src/pages/Ideas.jsx:110 | Trimming twice is trimming once |
| Tags.AddTag | src/pages/Ideas.jsx:108-119 | Enter appends the trimmed tag after the old tags when it is non-blank and absent. A blank input or a tag already present (even in a list that holds duplicates) leaves the list unchanged. It keeps the list duplicate-free |
| Tags.RemoveTag | src/pages/Ideas.jsx:121-126 | Removes every entry equal to the tag and keeps every copy of every other tag, in order. It keeps the list duplicate-free |
| Tags.RemoveUndoesAdd | src/pages/Editor.jsx:53-71 | Removing a tag just added (and absent before) restores the old list |
| Tags.AddTagIdempotent | src/pages/Editor.jsx:53-64 | Pressing Enter twice with the same input adds the tag at most once |
| Ideas.EmptyForm | src/pages/Ideas.jsx:29-34 | The empty form has an empty title and content, the first palette colour and no tags |
| Ideas.SaveRequest | src/pages/Ideas.jsx:53-72 | No call iff the trimmed title is empty. Otherwise the form is sent, as an update of the edited idea iff one is being edited |
| Ideas.FormFromIdea | src/pages/Ideas.jsx:85-94 | Edit copies the idea into the form, with missing content as "" and missing tags as [] |
| Ideas.RemoveIdea | src/pages/Ideas.jsx:79 | After a delete, no idea has that id. Every other idea stays, in order |
| Ideas.TogglePinned | src/pages/Ideas.jsx:128-139 | Only the matching idea's `is_pinned` flips. Its other fields and all other ideas are unchanged |
| Ideas.TogglePinnedTwice | src/pages/Ideas.jsx:128-139 | Toggling the pin twice restores the list |
| Ideas.IdeasPage.constructor | src/pages/Ideas.jsx:24-35 | The page starts with no ideas, the form closed, no idea being edited, an empty form and an empty tag field |
| Ideas.IdeasPage.LoadIdeas | src/pages/Ideas.jsx:41-51 | A successful fetch replaces the list. A failed one changes nothing |
| Ideas.IdeasPage.OpenCreate | src/pages/Ideas.jsx:168 | New Idea opens the form and leaves the rest unchanged |
| Ideas.IdeasPage.HandleCancel | src/pages/Ideas.jsx:96-106 | Cancel closes the form, clears the edited id and the tag field, and resets the form |
| Ideas.IdeasPage.HandleSave | src/pages/Ideas.jsx:53-72 | A blank title makes no call and changes no state. A successful save reloads the list and cancels the form. A failed one changes nothing |
| Ideas.IdeasPage.HandleDelete | src/pages/Ideas.jsx:74-83 | A confirmed, successful delete removes the idea from the list. Otherwise nothing changes |
| Ideas.IdeasPage.HandleEdit | src/pages/Ideas.jsx:85-94 | Edit opens the form filled from the idea and records its id |
| Ideas.IdeasPage.HandleAddTag | src/pages/Ideas.jsx:108-119 | Only Enter with a non-blank input acts: it adds the tag if new and clears the field. Tags stay duplicate-free |
| Ideas.IdeasPage.HandleRemoveTag | src/pages/Ideas.jsx:121-126 | The tag's entries leave the form's tags. Tags stay duplicate-free |
| Ideas.IdeasPage.HandleTogglePin | src/pages/Ideas.jsx:128-139 | A successful toggle flips the pin of the matching idea only |
| Ideas.IdeasPage.HandleToggleArchive | src/pages/Ideas.jsx:141-148 | A successful archive toggle reloads the list |
| Ideas.IdeasPage.ToggleShowArchived | src/pages/Ideas.jsx:37-39 | The switch flips `showArchived`, and its effect reloads the list |
| Ideas.IdeasPage.SetTitle | src/pages/Ideas.jsx:201-202 | Typing in the title changes only the form's title |
| Ideas.IdeasPage.SetContent | src/pages/Ideas.jsx:213-214 | Typing in the content changes only the form's content |
| Ideas.IdeasPage.SetColor | src/pages/Ideas.jsx:228 | A swatch click changes only the form's colour |
| Ideas.IdeasPage.SetTagInput | src/pages/Ideas.jsx:250 | Typing in the tag field changes only the field |
| Editor.InitialForm | src/pages/Editor.jsx:19-27 | The form starts as a draft poem with an empty title, content, tags, featured image and media |
| Editor.ChangeField | src/pages/Editor.jsx:48-51 | Only the named field takes the new value |
| Editor.PostData | src/pages/Editor.jsx:114-117 | The saved record is the form with only `status` replaced by the chosen status |
| Editor.SaveRequest | src/pages/Editor.jsx:106-130 | No call iff the trimmed title or the trimmed content is empty. Otherwise the post data is sent, as an update of the routed post iff the route has an id |
| Editor.UploadedUrls | src/pages/Editor.jsx:81-90 | A batch gives its URLs in file order iff every upload succeeded |
| Editor.RemoveMedia | src/pages/Editor.jsx:99-104 | Removes every entry equal to the URL and keeps every copy of every other URL, in order |
| Editor.RemoveMediaUndoesAppend | src/pages/Editor.jsx:99-104 | Removing a URL just appended (and absent before) restores the list |
| Editor.EditorPage.constructor | src/pages/Editor.jsx:19-28 | The editor starts with the initial form, an empty tag field and the route's id |
| Editor.EditorPage.LoadPost | src/pages/Editor.jsx:30-46 | With a route id, a fetched post fills the form. A failed fetch changes nothing |
| Editor.EditorPage.HandleChange | src/pages/Editor.jsx:48-51 | Only the named field changes |
| Editor.EditorPage.SetTagInput | src/pages/Editor.jsx:233 | Typing in the tag field changes only the field |
| Editor.EditorPage.HandleAddTag | src/pages/Editor.jsx:53-64 | Only Enter with a non-blank input acts, adding the tag if new and clearing the field. Tags stay duplicate-free |
| Editor.EditorPage.HandleRemoveTag | src/pages/Editor.jsx:66-71 | The tag's entries leave the tags. Tags stay duplicate-free |
| Editor.EditorPage.HandleFileUpload | src/pages/Editor.jsx:73-97 | With files that all uploaded, their URLs are appended after the existing media in file order. Otherwise the media stay |
| Editor.EditorPage.HandleRemoveMedia | src/pages/Editor.jsx:99-104 | Every copy of the URL leaves the media list |
| Editor.EditorPage.HandleSave | src/pages/Editor.jsx:106-130 | The call made is the save request for the form. The page navigates to the feed iff a call was made and succeeded |
| Feed.Matches | src/pages/Feed.jsx:55-61 | The filter switch. UnfilteredShowsAll and NamedFiltersExact state what each value selects |
| Feed.FilteredPosts | src/pages/Feed.jsx:55-61 | The shown posts are an order-preserving subsequence of the posts: exactly those that pass the filter |
| Feed.UnfilteredShowsAll | src/pages/Feed.jsx:56-60 | "all", and any value other than the three named filters, shows every post |
| Feed.NamedFiltersExact | src/pages/Feed.jsx:57-59 | "published" and "draft" show exactly the posts with that status. "favorite" shows exactly the favourites |
| Feed.RemovePost | src/pages/Feed.jsx:35 | After a delete, no post has that id. Every other post stays, in order |
| Feed.SetFavorite | src/pages/Feed.jsx:45-49 | Only the matching post's `is_favorite` becomes `!currentValue`. Nothing else changes |
| Feed.FavoriteShowsUnderFilter | src/pages/Feed.jsx:42-59 | After a toggle, the post shows under "favorite" iff it was not a favourite |
| Feed.Excerpt | src/pages/Feed.jsx:204-205 | The excerpt is the first 150 characters, followed by "..." iff the content is longer |
| Feed.ExcerptIsPrefix | src/pages/Feed.jsx:204-205 | The excerpt begins with the content's first characters. It equals the content iff the content fits, or is 150 characters followed by "..." |
| Feed.ShownTags | src/pages/Feed.jsx:210-217 | At most the first three tags are shown, in order, and none when the post has no tags |
| Feed.FeedPage.constructor | src/pages/Feed.jsx:10-12 | The feed starts empty with the "all" filter |
| Feed.FeedPage.LoadPosts | src/pages/Feed.jsx:18-28 | A successful fetch replaces the posts. A failed one changes nothing |
| Feed.FeedPage.SetFilter | src/pages/Feed.jsx:85 | A filter button changes only the filter |
| Feed.FeedPage.HandleDelete | src/pages/Feed.jsx:30-40 | A confirmed, successful delete removes the post |
| Feed.FeedPage.HandleToggleFavorite | src/pages/Feed.jsx:42-53 | A successful toggle sets the matching post's flag to `!currentValue` |
| Gallery.NewPhoto | src/pages/Gallery.jsx:44-51 | Each uploaded file's record has its URL, caption "" and album "default" |
| Gallery.FirstFailure | src/pages/Gallery.jsx:43-50 | The files before the first failed upload or insert all succeeded, and that file failed |
| Gallery.Drafts | src/pages/Gallery.jsx:44-51 | One record per processed file |
| Gallery.CreateRecords | src/pages/Gallery.jsx:43-50 | The loop inserts one record per file, in file order, up to the first failure. It reports completion iff no file failed |
| Gallery.FirstFailureIs | src/pages/Gallery.jsx:43-50 | The first failure is where a run of successes ends |
| Gallery.RemovePhoto | src/pages/Gallery.jsx:67 | After a delete, no photo has that id. Every other photo stays, in order |
| Gallery.ToggleFavorite | src/pages/Gallery.jsx:76-80 | Only the matching photo's `is_favorite` flips. Nothing else changes |
| Gallery.ToggleFavoriteTwice | src/pages/Gallery.jsx:73-84 | Toggling twice restores the gallery |
| Gallery.SetCaption | src/pages/Gallery.jsx:89-93 | Only the matching photo gets the caption. Nothing else changes |
| Gallery.SetCaptionLastWins | src/pages/Gallery.jsx:86-97 | Two caption saves in a row leave the second caption |
| Gallery.EditAndSaveUnchangedCaption | src/pages/Gallery.jsx:350-353 | Opening the editor and saving without typing writes back the photo's caption, with a missing caption becoming "" |
| Gallery.GalleryPage.constructor | src/pages/Gallery.jsx:14-19 | The gallery starts empty, with no photo open, no edit mode and an empty buffer |
| Gallery.GalleryPage.LoadPhotos | src/pages/Gallery.jsx:25-35 | A successful fetch replaces the photos. A failed one changes nothing |
| Gallery.GalleryPage.HandleFileUpload | src/pages/Gallery.jsx:37-60 | No files: nothing happens. Otherwise it inserts records up to the first failure, and reloads the gallery only if every file went through |
| Gallery.GalleryPage.HandleDelete | src/pages/Gallery.jsx:62-71 | A confirmed, successful delete removes the photo |
| Gallery.GalleryPage.HandleToggleFavorite | src/pages/Gallery.jsx:73-84 | A successful toggle flips only the matching photo's flag |
| Gallery.GalleryPage.HandleUpdateCaption | src/pages/Gallery.jsx:86-97 | A successful save puts the buffered caption on the matching photo, then clears edit mode and the buffer. A failed one changes nothing. The open viewer's photo is not refreshed |
| Gallery.GalleryPage.SelectPhoto | src/pages/Gallery.jsx:159 | A click opens that photo in the viewer |
| Gallery.GalleryPage.CloseViewer | src/pages/Gallery.jsx:256 | Closing empties the viewer |
| Gallery.GalleryPage.EnterEditMode | src/pages/Gallery.jsx:350-353 | Edit mode is set to the viewed photo's id, and the buffer is preloaded with its caption or "" |
| Gallery.GalleryPage.CancelEdit | src/pages/Gallery.jsx:333-337 | Cancel leaves edit mode and clears the buffer |
| Gallery.GalleryPage.SetCaptionBuffer | src/pages/Gallery.jsx:321 | Typing changes only the caption buffer |
| MoodTracker.MoodTypesDistinct | src/pages/MoodTracker.jsx:21-28 | There are six options with six different types |
| MoodTracker.OptionFor | src/pages/MoodTracker.jsx:69 | The lookup by type finds nothing iff no option has the type. Otherwise it finds an option of that type |
| MoodTracker.OptionForOwnType | src/pages/MoodTracker.jsx:21-28 | Looking up an option by its own type returns that option, so lookup is unambiguous |
| MoodTracker.MoodForDate | src/pages/MoodTracker.jsx:107-110 | The result is the first loaded mood recorded for the date, or none iff no mood has that date |
| MoodTracker.SaveRequest | src/pages/MoodTracker.jsx:83-105 | With no mood selected, nothing is saved. Otherwise the record holds the date, the type, the intensity, the trimmed note and the option's colour |
| MoodTracker.MonthOf | src/pages/MoodTracker.jsx:139-146 | A month index outside 0..11 carries into the year, keeping the month count year*12 + month |
| MoodTracker.PrevMonth | src/pages/MoodTracker.jsx:139-146 | Prev moves back one month, from January to December of the year before |
| MoodTracker.NextMonth | src/pages/MoodTracker.jsx:162-169 | Next moves forward one month, from December to January of the year after |
| MoodTracker.PrevNextRoundTrip | src/pages/MoodTracker.jsx:139-169 | Next undoes Prev and Prev undoes Next |
| MoodTracker.MonthStepIsOne | src/pages/MoodTracker.jsx:139-169 | Each button changes the month count year*12 + month by exactly one |
| MoodTracker.UnknownStoredTypeBlocksSave | src/pages/MoodTracker.jsx:68-87 | A stored mood whose type matches no option loads as "no selection", so saving it is refused |
| MoodTracker.MoodPage.constructor | src/pages/MoodTracker.jsx:31-37 | The page starts on today and this month, with nothing selected, intensity 3 and an empty note |
| MoodTracker.MoodPage.LoadMoods | src/pages/MoodTracker.jsx:49-61 | A successful fetch replaces the moods. A failed one changes nothing |
| MoodTracker.MoodPage.MoodShownOn | src/pages/MoodTracker.jsx:107-110 | The calendar cell for a date shows the first loaded mood for that date, as MoodForDate's contract states |
| MoodTracker.MoodPage.LoadMoodForDate | src/pages/MoodTracker.jsx:63-81 | A found mood selects the option of its type, copies its intensity, and sets the note to the stored one or "". No mood resets to none, 3 and "". A failed lookup changes nothing |
| MoodTracker.MoodPage.SelectDate | src/pages/MoodTracker.jsx:43-47 | Picking a day selects it and loads that day's mood as above |
| MoodTracker.MoodPage.SelectMood | src/pages/MoodTracker.jsx:276 | An option click selects that option |
| MoodTracker.MoodPage.SetIntensity | src/pages/MoodTracker.jsx:303-308 | The slider sets the intensity, which stays within 1..5 |
| MoodTracker.MoodPage.SetNote | src/pages/MoodTracker.jsx:332 | Typing changes only the note |
| MoodTracker.MoodPage.HandleSaveMood | src/pages/MoodTracker.jsx:83-105 | The record saved is the save request for the form. It is reloaded after success. The form is kept |
| MoodTracker.MoodPage.HandlePrevMonth | src/pages/MoodTracker.jsx:139-146 | The month steps back and its moods are loaded |
| MoodTracker.MoodPage.HandleNextMonth | src/pages/MoodTracker.jsx:162-169 | The month steps forward and its moods are loaded |
| MainApp.InitialStats | src/pages/MainApp.jsx:9-15 | Every counter is 0 before loading |
| MainApp.ComputeStats | src/pages/MainApp.jsx:31-37 | The totals equal the list lengths. Published posts and active ideas are the size of their filters, at most the total |
| MainApp.StatsAfterLoad | src/pages/MainApp.jsx:22-43 | The counters are replaced iff all four fetches succeed |
| MainApp.AllPublishedIff | src/pages/MainApp.jsx:33 | The published count equals the total iff every post is published |
| MainApp.CountsPartition | src/pages/MainApp.jsx:33-36 | Published plus unpublished posts is the total. Active plus archived ideas is the number fetched |

## Left out

- The database gateway is not part of this model: every query, upload, insert, update and delete, with its file naming and random prompt choice. Each handler takes the outcome of its remote call as a parameter.
- The router and the navigation bar are static tables matched by the routing library.
- DOM creation, styling and CSS classes are left out, apart from the stage panels' visibility and marks.
- Random attributes are left out: the mouse glow, the rose petals, and the random positions, colours, angles and velocities of particles. A particle keeps only its kind, index and timing.
- The landing page's photo viewer is left out.
- Date formatting and calendar generation are left out. Dates are "yyyy-MM-dd" strings, and a month is a (year, month index) pair.
- async interleaving is left out: calls that overlap and responses that arrive out of order. Each handler runs to completion with its awaited results given.
- The editor's parallel uploads are modelled as one batch that either yields every URL or fails.
- `alert` and `confirm` dialogs appear only as the `confirmed` parameter.
- Console logging and the loading and uploading spinners are left out.
- Feed.Excerpt: counts characters as code points, while `substring` counts UTF-16 code units. A post whose first 150 units hold astral characters is cut at a different place.
- MoodTracker.MoodPage.LoadMoodForDate: copies the stored intensity as it is, so 1..5 holds only for the slider and the defaults, not for a stored row outside that range.
- `currentMonth` is modelled as a (year, month) pair. The month buttons build `new Date(year, month ± 1)`, whose day is always 1; the time of day of the initial `new Date()` is not modelled.
- Celebration.FireDue: timers that fall due in the same millisecond fire in the order they were scheduled. This order is a modelling choice: the HTML timer rules fix it only for a timeout set earlier with an equal or shorter delay. The case is reachable: with two clicks 2500 ms apart, the first chain's stage-3 timer and the second chain's stage-2 timer both fall due 4500 ms after the first click.
- Editor.EditorPage.LoadPost: the fetched post is given as the seven form fields. The page actually stores the whole row, so its other columns (id, favourite flag, timestamps) are re-sent by Save. A row whose `tags` or `media_urls` is null makes the page fail when it renders or edits the list; that case is not modelled.
- Celebration.Sequencer.Tick: advances the clock one millisecond at a time. The browser's timer clamping and the jitter of real time are not modelled.
- The typewriter's clean-up on unmount is not modelled. The greeting runs once from mount.
