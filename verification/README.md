# Media tracker core in Dafny

media-mania is a web application for keeping a personal list of movies, TV
shows and books. Users can:
- review items and rate them with stars;
- track TV seasons one by one (watched or not, each with its own rating);
- follow other users.

This project models the rule layer underneath the user interface.

**Value rules**
- the deterministic placeholder cover URL;
- the season-rating mean;
- the mapping from a stored `media_items` row to an item.

**State**
- the in-memory media collection and its per-type views;
- the persistence-gated version of that collection, which changes only after the backend reports success.

**Forms and widgets**
- the season editors of the add page and the edit form;
- the season list view and its own average;
- the year, review and profile validators;
- the star-rating widget and the review editor.

**Follow graph**
- the follows table as a set of (follower, following) pairs;
- the follow button and the followers/following dialog built on it.

**Derived views**
- another user's profile lists;
- the home page's recent strip;
- the own-profile page;
- the detail page's handlers.

**How the source is modelled**
- Pure code becomes functions and lemmas. Code that changes component or hook state becomes classes whose methods carry `modifies` clauses and are proved against those functions.
- Backend calls become parameters: a `Result`, a `...Fails` flag, or the follow set itself.
- The clock becomes a `now`/`today` parameter.
- The `addedDate` of an item is a `yyyy-mm-dd` text, compared lexicographically.
- Ratings are `real`.
- A JavaScript object spread `{ ...item, ...updates }` is `Overlay` with a `Patch`. In a `Patch`, every key is either absent (`Keep`) or present with a value (`Set`).

**Two behaviours of the code worth noting.**
- `generateImageForTitle` (src/hooks/useImageGeneration.ts:7-16) does not consult shared images first. It returns the placeholder.
- The stored mean (src/utils/mediaUtils.ts:53) counts a season rated 0. The season list's average (src/components/media/SeasonsList.tsx:29) does not. Both are modelled, and `SeasonsListView.AveragesDisagreeOnZero` exhibits the difference.

## Model

| member | source | states |
|---|---|---|
| MediaTypes.OverlayLaws | src/context/MediaContext.tsx:42 | the spread merge is right-biased: the empty update is the identity, overlaying twice equals once, a key present with `undefined` clears the field, an absent id key keeps the id |
| MediaTypes.WithIdentity | src/context/MediaContext.tsx:30-34 | a completed draft carries exactly the given id and added date |
| MediaTypes.TypeNameInjective | src/types/index.ts:2 | the three type names are distinct, so the name determines the type |
| Text.Trim | src/pages/AddMedia.tsx:58 | `trim()` yields "" exactly for blank input, and otherwise starts and ends with a non-space |
| Text.TrimCutsOnlySpace | src/pages/AddMedia.tsx:58 | `trim()` returns a contiguous slice of the input, and everything cut off before and after it is whitespace |
| Text.SplitTrimmedHasNoEmptyPiece | src/pages/AddMedia.tsx:241 | splitting a trimmed non-empty text on whitespace runs never yields an empty token |
| Text.ReviewLimitMatchesCounter | src/pages/AddMedia.tsx:240-245 | a review edit is accepted exactly when the "n/200 words" counter for it is at most 200, and the counter is 0 exactly for blank text |
| Text.DigitsValueOfDecimal | src/components/media/MediaEditForm.tsx:19-27 | `parseInt` of the decimal text of a year gives back the year |
| Text.FirstCodeUnit | src/utils/mediaUtils.ts:7 | `charCodeAt(0)` of a code point is the point itself below 0x10000, and otherwise a high surrogate |
| MediaUtils.Seed | src/utils/mediaUtils.ts:7 | the seed is a sum of code units: never negative (so `Math.abs` is the identity), and at most 0xFFFF per character |
| MediaUtils.SeedOfConcat | src/utils/mediaUtils.ts:7 | the seed adds up over concatenation |
| MediaUtils.ImagePool | src/utils/mediaUtils.ts:10-38 | each type's pool holds 5 ids, none empty, none containing `?` |
| MediaUtils.Hue | src/utils/mediaUtils.ts:45 | the hue is below 360 |
| MediaUtils.Saturation | src/utils/mediaUtils.ts:46 | the saturation is between 30 and 79 |
| MediaUtils.GeneratePlaceholderImage | src/utils/mediaUtils.ts:42-48 | the URL starts with `https://images.unsplash.com/` and contains a `?` |
| MediaUtils.PlaceholderUrlDecomposes | src/utils/mediaUtils.ts:42-48 | the text before the first `?` is the prefix followed by exactly the pool photo at `seed % 5`, and the parameters after it are in range |
| MediaUtils.RatedSeasons | src/utils/mediaUtils.ts:53 | keeps only seasons with a defined rating, and is non-empty when any season has one |
| MediaUtils.MeanTimesCountIsSum | src/utils/mediaUtils.ts:52-58 | `calculateAverageRating` is 0 without defined ratings and otherwise their mean: times their number it gives their sum |
| MediaUtils.RatedSumBounds | src/utils/mediaUtils.ts:56 | the defined ratings add up to between `lo` and `hi` times their number |
| MediaUtils.AverageWithinBounds | src/utils/mediaUtils.ts:52-58 | the mean lies between the lowest and highest defined rating |
| MediaUtils.AverageOfUnratedIsZero | src/utils/mediaUtils.ts:54 | with no defined rating the mean is 0 |
| MediaUtils.ZeroRatingIsCounted | src/utils/mediaUtils.ts:53 | a season rated 0 is counted: ratings 4 and 0 average to 2 |
| MediaUtils.RatedSeasonsOfConcat | src/utils/mediaUtils.ts:53 | the rated-season filter distributes over concatenation |
| MediaUtils.RatedSeasonsMembers | src/utils/mediaUtils.ts:53 | a season is in the rated list exactly when it is in the input and its rating is defined |
| MediaUtils.RatingSumOfConcat | src/utils/mediaUtils.ts:56 | the rating sum distributes over concatenation |
| MediaUtils.TransformDbItem | src/utils/mediaUtils.ts:61-76 | a review exists iff `review_rating` is present and non-zero, with text defaulting to "" and date to today; every other column is copied one to one |
| MediaContext.OfType | src/context/MediaContext.tsx:25-27 | the type filter is no longer than the list and holds only items of that type |
| MediaContext.OfTypeMembers | src/context/MediaContext.tsx:25-27 | an item is in a type's view exactly when it is in the list and has that type |
| MediaContext.OfTypeOfConcat | src/context/MediaContext.tsx:25-27 | filtering distributes over concatenation, so list order is kept |
| MediaContext.PartitionCount | src/context/MediaContext.tsx:25-27 | movies + tvShows + books have as many items as media |
| MediaContext.PartitionPermutes | src/context/MediaContext.tsx:25-27 | the three views together are a permutation of media |
| MediaContext.FindById | src/context/MediaContext.tsx:55-57 | the first item with the id, or none exactly when no item has it |
| MediaContext.UpdateById | src/context/MediaContext.tsx:40-43 | items with the id get the overlay, others are unchanged, and the length is kept |
| MediaContext.UnknownIdUpdateIsNoOp | src/context/MediaContext.tsx:42 | updating an id no item has leaves the list unchanged |
| MediaContext.FindAfterUpdate | src/context/MediaContext.tsx:42 | after an update that keeps ids, the lookup finds the overlay of what it found before |
| MediaContext.RemoveId | src/context/MediaContext.tsx:47-49 | no item with the id is left, and every other item is |
| MediaContext.RemoveIdOfConcat | src/context/MediaContext.tsx:49 | removal distributes over concatenation, so the survivors keep their order |
| MediaContext.MakeIdInjective | src/context/MediaContext.tsx:32 | a local id determines the type and timestamp it was made from |
| MediaContext.MakeId | src/context/MediaContext.tsx:32 | a local id is the type name followed by a non-empty run of digits |
| MediaContext.MediaStore.constructor | src/context/MediaContext.tsx:23 | the collection starts empty |
| MediaContext.MediaStore.AddMediaItem | src/context/MediaContext.tsx:29-38 | exactly one item is appended, with id type+timestamp and today's date, and the three views still add up |
| MediaContext.MediaStore.UpdateMediaItem | src/context/MediaContext.tsx:40-45 | the list becomes the merge-update by id |
| MediaContext.MediaStore.DeleteMediaItem | src/context/MediaContext.tsx:47-53 | the list becomes the filter by id |
| MediaCrud.ReviewWithRating | src/hooks/useMediaCrud.ts:64-67 | the new review has the mean as rating and keeps the old text and date, or takes "" and today |
| MediaCrud.ApplyAddRating | src/hooks/useMediaCrud.ts:60-69 | on add, only the review changes, and only for a TV item whose mean is positive and whose review is absent or rated 0 |
| MediaCrud.ApplyUpdateRating | src/hooks/useMediaCrud.ts:119-130 | on update, only the review changes, whenever seasons are sent, the item is TV and the mean is positive |
| MediaCrud.AddRatingIdempotent | src/hooks/useMediaCrud.ts:60-69 | recomputing the add rating twice equals once |
| MediaCrud.UpdateRatingIdempotent | src/hooks/useMediaCrud.ts:119-130 | applying the same update twice stores the same item as once |
| MediaCrud.AddAndUpdateRulesDiffer | src/hooks/useMediaCrud.ts:63 | a TV show rated 3 with one season rated 5 keeps 3 on add but gets 5 on update |
| MediaCrud.RecomputedRatingInRange | src/hooks/useMediaCrud.ts:62-66 | with season ratings in [0,5], the recomputed review rating is in [0,5] |
| MediaCrud.SharedImageOnAdd | src/hooks/useMediaCrud.ts:74-76 | an image is shared on add iff its URL is non-empty and has no `?` |
| MediaCrud.SharedImageOnUpdate | src/hooks/useMediaCrud.ts:133-138 | an image is shared on update iff a new, changed, non-empty URL without `?` is sent |
| MediaCrud.PlaceholderNeverShared | src/hooks/useMediaCrud.ts:74 | a generated placeholder URL is never shared, on add or on update |
| MediaCrud.StoredItemRoundTrip | src/hooks/useMediaCrud.ts:79-94 | writing an item and mapping the row back gives the item with the row id, when its review is non-zero and dated |
| MediaCrud.ToDbRow | src/hooks/useMediaCrud.ts:79-94 | the inserted row carries the user id, and review columns exactly when the item has a review; an empty attribution is written as null |
| MediaCrud.ZeroRatedReviewIsLost | src/utils/mediaUtils.ts:69-73 | a review rated 0 does not survive a reload, even when it has text |
| MediaCrud.TransformAll | src/hooks/useMediaCrud.ts:37 | each row maps to the item at the same position |
| MediaCrud.ReplaceById | src/hooks/useMediaCrud.ts:160-167 | items with the id are replaced by the updated item, others kept, and the length is kept |
| MediaCrud.UpdateAgreesWithStore | src/hooks/useMediaCrud.ts:160-167 | without a recompute and with unique ids, the persisted update leaves the list as the in-memory merge-update does |
| MediaCrud.MediaCrud.constructor | src/hooks/useMediaCrud.ts:15 | loading starts true |
| MediaCrud.MediaCrud.Load | src/hooks/useMediaCrud.ts:18-46 | signed out empties the list; a fetched list replaces it; a failure keeps it; loading ends |
| MediaCrud.MediaCrud.Add | src/hooks/useMediaCrud.ts:48-105 | the recomputed item is appended only when signed in and both the share and the insert succeed; the gate decides what is shared |
| MediaCrud.MediaCrud.Update | src/hooks/useMediaCrud.ts:107-173 | an unknown id or a failure changes nothing; on success every item with the id becomes the merged, recomputed item |
| MediaCrud.MediaCrud.Delete | src/hooks/useMediaCrud.ts:175-202 | on success items with the id are removed and the rest kept in order; otherwise nothing changes |
| Seasons.ToggleWatched | src/pages/AddMedia.tsx:44-52 | only seasons with the given number flip `watched`; numbers and length are kept |
| Seasons.SetSeasonRating | src/components/media/MediaEditForm.tsx:48-56 | only seasons with the given number get the rating; numbers and length are kept |
| Seasons.ResizeKeepsNumbering | src/pages/AddMedia.tsx:34-42 | add and remove keep numbers 1..n and 1 <= n <= 20; add appends season n+1 below 20 and remove drops the last above 1, otherwise nothing changes |
| Seasons.ToggleTouchesOneSeason | src/components/media/MediaEditForm.tsx:38-46 | on a contiguous list the toggle changes exactly season n, keeps numbering, and undoes itself |
| Seasons.RatingTouchesOneSeason | src/components/media/MediaEditForm.tsx:48-56 | on a contiguous list rating season n changes exactly that season's rating |
| AddMediaPage.UnratedDraftKeepsReview | src/pages/AddMedia.tsx:34-37 | the add page's seasons carry no rating, so adding its draft never recomputes the review |
| AddMediaPage.AddMediaForm.constructor | src/pages/AddMedia.tsx:25-32 | the form starts empty with one unwatched season numbered 1 |
| AddMediaPage.AddMediaForm.AddSeason | src/pages/AddMedia.tsx:34-37 | only the seasons change, by the bounded append, and the form stays valid |
| AddMediaPage.AddMediaForm.RemoveSeason | src/pages/AddMedia.tsx:39-42 | only the seasons change, by the bounded drop, and the form stays valid |
| AddMediaPage.AddMediaForm.ToggleSeasonWatched | src/pages/AddMedia.tsx:44-52 | only the seasons change, by the toggle, and the form stays valid |
| AddMediaPage.AddMediaForm.ChangeReleaseYear | src/pages/AddMedia.tsx:164-169 | the year is kept only when empty or all digits |
| AddMediaPage.AddMediaForm.ChangeReview | src/pages/AddMedia.tsx:240-245 | the review is kept only when it passes the word test, and the counter stays at most 200 |
| AddMediaPage.AddMediaForm.ChangeRating | src/pages/AddMedia.tsx:231 | only the rating changes |
| AddMediaPage.AddMediaForm.Submit | src/pages/AddMedia.tsx:54-79 | refused iff the title is blank; review iff rated or the text is not blank; seasons iff TV; empty creator, image and year become absent |
| SeasonsListView.PositiveSeasons | src/components/media/SeasonsList.tsx:29 | keeps only positively rated seasons, and is empty iff none is |
| SeasonsListView.PositiveSumIsPositive | src/components/media/SeasonsList.tsx:30 | positive ratings have a positive sum |
| SeasonsListView.ViewAverageIsMeanOfPositive | src/components/media/SeasonsList.tsx:27-32 | `averageSeasonRating` is 0 for no seasons, NaN without positive ratings, and otherwise the mean of the positive ratings |
| SeasonsListView.AverageShownIffSomePositive | src/components/media/SeasonsList.tsx:27-32 | the average line shows iff some season is positively rated; an empty list gives 0 and no positive ratings give NaN |
| SeasonsListView.AveragesDisagreeOnZero | src/components/media/SeasonsList.tsx:29 | ratings 4 and 0 give 2 as the stored mean but 4 in this view |
| SeasonsListView.AveragesAgreeWhenAllPositive | src/components/media/SeasonsList.tsx:27-32 | when every season is positively rated the two averages coincide |
| SeasonsListView.ZeroSeasonLeavesViewAverage | src/components/media/MediaEditForm.tsx:58-61 | a season added with rating 0 leaves this view's average unchanged |
| SeasonsListView.PositiveSeasonsOfConcat | src/components/media/SeasonsList.tsx:29 | the positive filter distributes over concatenation |
| SeasonsListView.PositiveSeasonsMembers | src/components/media/SeasonsList.tsx:29 | a season is in the positive list exactly when it is in the input and rated above zero |
| SeasonsListView.MarksMatchAverage | src/components/media/SeasonsList.tsx:111-112 | the rating suffix shows iff the view's average counts the season; the check mark shows iff watched |
| SeasonsListView.DisabledExactlyWhenNoOp | src/components/media/SeasonsList.tsx:47-56 | each button is disabled exactly when its handler would change nothing |
| MediaEditFormModel.YearText | src/components/media/MediaEditForm.tsx:19 | the initial year text passes the year input filter |
| MediaEditFormModel.DetailsPatch | src/components/media/MediaEditForm.tsx:25-36 | the save leaves id, image, added date, review and attribution out, never sends an empty creator, and sends a year exactly when the field is non-empty |
| MediaEditFormModel.SaveChangesOnlyDetails | src/components/media/MediaEditForm.tsx:25-36 | a save sets title, creator (empty as absent), year, type and seasons, even for a non-TV item, and keeps every other field |
| MediaEditFormModel.UneditedSaveKeepsItem | src/components/media/MediaEditForm.tsx:17-36 | saving unedited gives back the item, up to an empty creator and missing seasons |
| MediaEditFormModel.AddedSeasonCountsInMean | src/components/media/MediaEditForm.tsx:58-61 | the season added with rating 0 is counted by the stored mean |
| MediaEditFormModel.MediaEditForm.constructor | src/components/media/MediaEditForm.tsx:17-23 | the fields start from the item, with seasons defaulting to [] |
| MediaEditFormModel.MediaEditForm.ToggleSeason | src/components/media/MediaEditForm.tsx:38-46 | only the seasons change, by the toggle, keeping contiguity |
| MediaEditFormModel.MediaEditForm.RateSeason | src/components/media/MediaEditForm.tsx:48-56 | only the seasons change, by the rating, keeping contiguity |
| MediaEditFormModel.MediaEditForm.AddSeason | src/components/media/MediaEditForm.tsx:58-61 | only the seasons change, by the bounded append of a season rated 0 |
| MediaEditFormModel.MediaEditForm.RemoveSeason | src/components/media/MediaEditForm.tsx:63-66 | only the seasons change, by the bounded drop |
| MediaEditFormModel.MediaEditForm.ChangeReleaseYear | src/components/media/MediaEditForm.tsx:116-121 | the year is kept only when empty or all digits |
| StarRatingWidget.NextRating | src/components/StarRating.tsx:29 | a click clears the rating iff it hits the current rating, else sets it to the index; the result is in 0..5 |
| StarRatingWidget.ClickTwice | src/components/StarRating.tsx:29 | clicking the same star twice restores the rating only when it was that star |
| StarRatingWidget.FilledStarsFormPrefix | src/components/StarRating.tsx:41 | the filled stars are always a prefix |
| StarRatingWidget.HoverFillsFirstStars | src/components/StarRating.tsx:41 | while star h is hovered, exactly stars 1..h are filled, whatever the rating |
| StarRatingWidget.WholeRatingFillsFirstStars | src/components/StarRating.tsx:41 | with no hover, a rating k fills exactly stars 1..k |
| StarRatingWidget.StarRating.constructor | src/components/StarRating.tsx:12-19 | the rating starts at the initial rating, with nothing hovered |
| StarRatingWidget.StarRating.SyncInitialRating | src/components/StarRating.tsx:21-23 | the rating follows a new initial rating |
| StarRatingWidget.StarRating.Click | src/components/StarRating.tsx:25-32 | read-only ignores clicks; otherwise the rating becomes the next rating and exactly that value is reported |
| StarRatingWidget.StarRating.MouseEnter | src/components/StarRating.tsx:46 | hovering previews the star unless read-only |
| StarRatingWidget.StarRating.MouseLeave | src/components/StarRating.tsx:47 | leaving ends the preview unless read-only |
| ReviewSection.SavedReviewReloads | src/components/media/MediaReviewSection.tsx:15-28 | after a save, an editor seeded from the merged item shows the saved rating and text; only the review changed |
| ReviewSection.ReviewEditor.constructor | src/components/media/MediaReviewSection.tsx:15-17 | the editor starts from the stored rating (or 0) and text (or "") |
| ReviewSection.ReviewEditor.ReceiveItem | src/pages/MediaDetail.tsx:141-143 | a re-render replaces the `mediaItem` prop and keeps the rating, text and edit-mode state |
| ReviewSection.ReviewEditor.StartEditing | src/components/media/MediaReviewSection.tsx:74-88 | edit mode starts only when the current prop has no review, so never after a saved review has been merged into it |
| ReviewSection.ReviewEditor.ChangeRating | src/components/media/MediaReviewSection.tsx:39 | only the rating changes |
| ReviewSection.ReviewEditor.ChangeText | src/components/media/MediaReviewSection.tsx:48-53 | the text is kept only when it passes the word test, keeping the counter at most 200 |
| ReviewSection.ReviewEditor.Save | src/components/media/MediaReviewSection.tsx:19-28 | sends the review dated today and leaves edit mode |
| ReviewSection.ReviewEditor.Cancel | src/components/media/MediaReviewSection.tsx:64-68 | restores the rating and text of the current prop, including a review saved and merged into it, and leaves edit mode |
| EditProfilePage.ProfileIssues | src/pages/EditProfile.tsx:24-29 | each schema message is reported iff its check fails |
| EditProfilePage.ProfileValidIff | src/pages/EditProfile.tsx:24-29 | valid iff the username is 3 to 30 letters, digits or underscores and the bio is absent or at most 150 code units |
| EditProfilePage.FormDefaults | src/pages/EditProfile.tsx:67-70 | the loaded form always has a bio text, and an empty username exactly when the row has none |
| EditProfilePage.SubmittedUpdate | src/pages/EditProfile.tsx:83-90 | the update keeps the username and a non-empty bio, and never writes an empty bio |
| EditProfilePage.AsciiLengthIsCodeUnits | src/pages/EditProfile.tsx:25-27 | for a username of allowed characters, the JavaScript length is the character count |
| EditProfilePage.UneditedProfileRoundTrip | src/pages/EditProfile.tsx:66-90 | saving a loaded profile unedited writes it back, an empty bio as null; a missing username cannot be saved |
| EditProfilePage.EditProfileForm.constructor | src/pages/EditProfile.tsx:35-51 | the page starts loading with empty values |
| EditProfilePage.EditProfileForm.FetchProfile | src/pages/EditProfile.tsx:53-80 | without a user nothing changes; a fetched row resets the form to its defaults; loading ends |
| EditProfilePage.EditProfileForm.Submit | src/pages/EditProfile.tsx:82-99 | sends iff valid and signed in, with an empty bio as null; saving ends |
| Follow.FollowResult | src/hooks/useFollow.ts:72-112 | succeeds iff signed in, not self and the insert raises no error other than the unique-constraint violation (an existing pair counts as success); success adds the edge, failure changes nothing |
| Follow.UnfollowResult | src/hooks/useFollow.ts:115-141 | succeeds iff signed in and the delete succeeds; success removes the edge |
| Follow.FollowKeepsNoSelfFollows | src/hooks/useFollow.ts:82-85 | no operation creates a self-follow |
| Follow.FollowTwiceIsFollowOnce | src/hooks/useFollow.ts:87-108 | after a successful follow, a second follow leaves the same table and reports success unless its insert fails for a reason other than the unique constraint |
| Follow.PresentPairStillFailsOnError | src/hooks/useFollow.ts:94-108 | with the pair already present, only the unique-constraint error counts as success; any other insert error reports false |
| Follow.UnfollowTwiceIsUnfollowOnce | src/hooks/useFollow.ts:118-136 | a second unfollow leaves the same table |
| Follow.FollowThenUnfollowRestores | src/hooks/useFollow.ts:72-141 | follow then unfollow restores the table |
| Follow.FollowClient.constructor | src/hooks/useFollow.ts:19 | not loading, given table |
| Follow.FollowClient.FollowUser | src/hooks/useFollow.ts:72-112 | the table and the result are `FollowResult`'s, and loading ends |
| Follow.FollowClient.UnfollowUser | src/hooks/useFollow.ts:115-141 | the table and the result are `UnfollowResult`'s, and loading ends |
| Follow.FollowClient.CheckIsFollowing | src/hooks/useFollow.ts:22-40 | true only when the pair exists, and true whenever it exists and the query succeeds |
| Follow.FollowClient.GetFollowCounts | src/hooks/useFollow.ts:43-69 | the number of followers and followed users, or 0 and 0 on failure |
| Follow.FollowClient.GetFollowList | src/hooks/useFollow.ts:144-210 | [] on failure or a missing profile; otherwise one entry per row in order, marked followed iff signed in, the check succeeds and the pair exists |
| FollowButtonModel.FollowButton.constructor | src/components/FollowButton.tsx:25-26 | not following, loading |
| FollowButtonModel.VisibleIffFollowAllowed | src/components/FollowButton.tsx:65 | the button is shown exactly when a follow without a backend error would succeed: signed in and not one's own profile |
| FollowButtonModel.FollowButton.CheckFollowStatus | src/components/FollowButton.tsx:29-45 | skipped when hidden; otherwise the flag is the check's result and agrees with the table |
| FollowButtonModel.FollowButton.ToggleFollow | src/components/FollowButton.tsx:47-63 | unfollows when following, follows otherwise; the flag flips and is reported only on success, staying in step with the table |
| FollowersModalModel.MarkFollowing | src/components/FollowersModal.tsx:68-70 | only entries with the id get the new flag; the length is kept |
| FollowersModalModel.MarkFollowingLastWins | src/components/FollowersModal.tsx:62-96 | marking twice equals the last marking; an unknown id changes nothing |
| FollowersModalModel.RowButton | src/components/FollowersModal.tsx:142-218 | no button for the dialog's own user on the followers tab; unfollow iff following there; always unfollow on the following tab |
| FollowersModalModel.FollowersModal.constructor | src/components/FollowersModal.tsx:31-36 | empty lists, loading, no action |
| FollowersModalModel.FollowersModal.ChangeTab | src/components/FollowersModal.tsx:98-100 | only the tab changes |
| FollowersModalModel.FollowersModal.LoadFollowData | src/components/FollowersModal.tsx:45-60 | only the active tab's list is refilled; loading ends |
| FollowersModalModel.FollowersModal.HandleFollow | src/components/FollowersModal.tsx:62-78 | on success only the active list's matching entries are marked followed; on failure neither list changes; no action remains |
| FollowersModalModel.FollowersModal.HandleUnfollow | src/components/FollowersModal.tsx:80-96 | the same, marking not followed |
| MediaOrder.LexLeReflexive | src/pages/Home.tsx:13 | the date order is reflexive |
| MediaOrder.LexLeTotal | src/pages/Home.tsx:13 | any two dates are comparable |
| MediaOrder.LexLeAntisymmetric | src/pages/Home.tsx:13 | dates ordered both ways are equal |
| MediaOrder.LexLeTransitive | src/pages/Home.tsx:13 | the date order is transitive |
| MediaOrder.Insert | src/pages/Home.tsx:13 | inserting adds exactly that item |
| MediaOrder.SortDesc | src/hooks/useProfileMedia.ts:54-56 | the sort is a permutation |
| MediaOrder.SortDescNewestFirst | src/hooks/useProfileMedia.ts:54-56 | the sorted list is newest first |
| MediaOrder.SortDescStable | src/pages/Home.tsx:13 | items of the same date keep their relative order |
| MediaOrder.SortDescOfSorted | src/pages/Profile.tsx:41-43 | sorting a newest-first list leaves it unchanged |
| MediaOrder.Take | src/pages/Home.tsx:14 | `slice(0, n)` is the prefix of length min(n, length) |
| ProfileMedia.ListsOf | src/hooks/useProfileMedia.ts:47-60 | the type lists are the filters in fetch order, and `all` is a permutation of the items |
| ProfileMedia.ListsAgree | src/hooks/useProfileMedia.ts:49-56 | `all` is newest first, holds exactly the three lists' items and is as long as they are together |
| ProfileMedia.ProfileMediaLoader.constructor | src/hooks/useProfileMedia.ts:8-19 | empty lists, not loading |
| ProfileMedia.ProfileMediaLoader.Fetch | src/hooks/useProfileMedia.ts:21-70 | skipped without an id or for the own profile; otherwise the lists are rebuilt from fetched rows or kept on failure, and loading ends |
| HomePage.RecentMedia | src/pages/Home.tsx:12-14 | at most 6 items |
| HomePage.RecentMediaSpec | src/pages/Home.tsx:12-14 | min(6, total) items drawn from the collection, newest first, stable per date, and no omitted item newer than a shown one |
| HomePage.OmittedNotNewer | src/pages/Home.tsx:14 | cutting a newest-first list keeps part of it and leaves out nothing newer than what it keeps |
| HomePage.RecentMediaOfCollection | src/pages/Home.tsx:9-14 | over the context views, the strip draws from the whole collection with min(6, size) items |
| ProfilePage.View | src/pages/Profile.tsx:20-78 | signed out gives only the login prompt, loading the spinner; otherwise the tabs are the context lists, `all` their permuted concatenation and each count its tab's length |
| ProfilePage.ViewOfCollection | src/pages/Profile.tsx:33-47 | over the context views, `all` is the whole collection newest first and agrees with another user's profile lists |
| MediaDetailPage.Attribution | src/pages/MediaDetail.tsx:63 | an existing attribution is kept, otherwise the current user is credited |
| MediaDetailPage.SelectionKeepsAttribution | src/pages/MediaDetail.tsx:58-71 | a selection sets the image, keeps a set attribution, and changes nothing else |
| MediaDetailPage.AttributionNeverOverwritten | src/pages/MediaDetail.tsx:58-71 | any run of selections keeps an existing attribution, and the last image wins |
| MediaDetailPage.FirstSelectorIsCredited | src/pages/MediaDetail.tsx:63 | the first signed-in selector of an unattributed item is credited for good |
| MediaDetailPage.ControlsFor | src/pages/MediaDetail.tsx:131-157 | review and delete controls iff signed in, a sign-in prompt otherwise |
| MediaDetailPage.MediaDetail.constructor | src/pages/MediaDetail.tsx:24-27 | the page's copy is the collection's item for the route id |
| MediaDetailPage.MediaDetail.HandleDelete | src/pages/MediaDetail.tsx:34-39 | deletes from the collection only when an item is loaded |
| MediaDetailPage.MediaDetail.HandleSelectSharedImage | src/pages/MediaDetail.tsx:58-71 | the collection and the page's copy both get the image and attribution, and stay in step |
| MediaDetailPage.MediaDetail.HandleGenerateImage | src/pages/MediaDetail.tsx:41-56 | nothing without an item or title; a generated URL becomes the image in both places; a failure changes neither; generation ends |
| MediaDetailPage.MediaDetail.HandleUpdateMediaItem | src/pages/MediaDetail.tsx:73-77 | the collection is updated by id and the page's copy overlaid, staying in step when the id is the page's own |

## Left out

- Backend I/O. The query builders, the `follows`, `profiles`, `media_items` and `shared_media_images` tables, and the row ids the backend assigns are not modelled. Each call appears only as a success/failure parameter or as a fetched `Result`, and the follows table as a set of pairs.
- Side effects: toasts, console logging, navigation, clipboard, animation and icons.
- Concurrency: the `Promise.all` fan-out of the follow list, stale closures, effect ordering and the mounted-ref guards. Every handler runs to completion as one step.
- The shared-image registry. `addSharedImage` and `findSharedImages` are opaque external calls, and only the gate in front of them is modelled. src/hooks/useImageGeneration.ts:18 returns only `generateImageForTitle`, so calling `addSharedImage` throws, which is the `shareFails` path of `MediaCrud.MediaCrud.Add` and `Update`.
- `MediaDetailPage.MediaDetail.HandleGenerateImage`: the generator's outcome is a parameter. The provider in src/context/MediaContext.tsx:69-79 does not supply `generateImageForTitle`, so as written the call throws (the `None` path). With the hook's generator it would return `GeneratePlaceholderImage`.
- `ProfilePage.View`: `isLoading` is a parameter. The provider in src/context/MediaContext.tsx:69-79 does not supply it, so the loading screen is never reached as written.
- `MediaCrud.MediaCrud.Add`: the local id made from type and timestamp is kept in the list; the id the backend assigns to the inserted row is not.
- `Follow.FollowClient.GetFollowList`: the fetched rows are a parameter and are not derived from the edge set. The query joining them to `profiles` is backend I/O.
- `MediaContext.MediaStore`: `GetMediaItemById`, `GetMediaItemsByType`, `GetUserMediaItems` and the three views are plain reading functions without contracts of their own. They are stated through `FindById`, `OfType` and `PartitionCount`. `GetUserMediaItems` ignores its argument, as the source does.
- Updates that set a required field (id, title, type, added date) to `undefined` cannot be expressed, because those `Patch` fields carry a value when present.
- Release years are `nat`, since the year inputs only admit digit strings. `parseInt` with leading whitespace or trailing non-digits is not modelled.
- The `maxLength=4` attribute of the year inputs is not modelled: longer digit strings are accepted.
- Dates are ISO `yyyy-mm-dd` strings compared lexicographically. `new Date` parsing of other or invalid strings is not modelled.
- `MediaOrder.SortDesc`: `transformedData.sort` sorts in place in useProfileMedia.ts; the model sorts a value. The filters that read `transformedData` run before the sort, so no later read sees the difference.
- `SeasonsListView`: the NaN of `0 / 0` is modelled only there. Averages elsewhere are reals. `toFixed(1)` display rounding is not modelled.
- The plain field setters of the forms (title, type, creator, image URL) and the star widget's callback wiring are not separate methods. Only the handlers with logic are.
- `handleMediaItemLoaded` and `FetchMediaItem.tsx` (loading an item missing from the collection), `useProfileData.ts` and `followService.ts` are not part of this model. They are backend fetches, or duplicates of the modelled queries.
- Presentation-only files are not part of this model: routing, the navbar, tabs, cards, dialogs, the image section and the shared-image picker.
