/**
 * The review panel of the detail page: an editor seeded from the item's
 * review, a 200-word limit on the text, a save that sends the whole review
 * as an update, and a cancel that restores the stored values.
 */
module ReviewSection {
  import opened Common
  import opened Text
  import opened MediaTypes

  /** `review?.rating || 0`. */
  function StoredRating(item: MediaItem): real {
    if item.review.Some? then item.review.value.rating else 0.0
  }

  /** `review?.text || ""`. */
  function StoredText(item: MediaItem): string {
    if item.review.Some? then item.review.value.text else ""
  }

  /** The update a save sends: only the `review` key, dated today. */
  function SaveReviewPatch(rating: real, text: string, today: string): Patch {
    NoChanges.(review := Set(Some(Review(rating, text, today))))
  }

  /**
   * Saving and reloading the editor gives back what was saved: after the
   * update is merged into the item, the item has a review (so "Add Review"
   * is no longer offered), an editor seeded from it or cancelled against it
   * gets the saved rating and text, and every other field of the item is
   * kept.
   */
  lemma SavedReviewReloads(item: MediaItem, rating: real, text: string, today: string)
    ensures var saved := Overlay(item, SaveReviewPatch(rating, text, today));
      && saved.review.Some?
      && StoredRating(saved) == rating && StoredText(saved) == text
      && saved.(review := item.review) == item
      && saved.review.value.date == today
  {
  }

  /** The review editor's state, with the `mediaItem` prop it was last rendered with. */
  class ReviewEditor {
    var item: MediaItem
    var isEditing: bool
    var rating: real
    var text: string

    constructor(item: MediaItem)
      ensures this.item == item && !isEditing
      ensures rating == StoredRating(item) && text == StoredText(item)
    {
      this.item := item;
      isEditing := false;
      rating := StoredRating(item);
      text := StoredText(item);
    }

    /**
     * A re-render with a new `mediaItem` prop, such as the page's copy with
     * a saved review merged in: the prop is replaced, while the rating and
     * text keep their state, since `useState` ignores a new initial value.
     */
    method ReceiveItem(newItem: MediaItem)
      modifies this
      ensures item == newItem
      ensures isEditing == old(isEditing) && rating == old(rating) && text == old(text)
    {
      item := newItem;
    }

    /** "Add Review" is offered only outside edit mode and only when the current item has no review. */
    method StartEditing()
      modifies this
      ensures isEditing == (old(isEditing) || item.review.None?)
      ensures rating == old(rating) && text == old(text) && item == old(item)
    {
      if !isEditing && item.review.None? {
        isEditing := true;
      }
    }

    /** The star widget's change callback. */
    method ChangeRating(r: real)
      modifies this
      ensures rating == r && text == old(text) && isEditing == old(isEditing) && item == old(item)
    {
      rating := r;
    }

    /** A text edit is kept only when it passes the 200-word test. */
    method ChangeText(value: string)
      modifies this
      ensures text == (if ReviewEditAccepted(value) then value else old(text))
      ensures ReviewEditAccepted(old(text)) ==> WordCounter(text) <= MaxReviewWords
      ensures rating == old(rating) && isEditing == old(isEditing) && item == old(item)
    {
      if ReviewEditAccepted(value) {
        ReviewLimitMatchesCounter(value);
        text := value;
      } else if ReviewEditAccepted(text) {
        ReviewLimitMatchesCounter(text);
      }
    }

    /** `handleSaveReview`: sends the review with today's date and leaves edit mode. */
    method Save(today: string) returns (p: Patch)
      modifies this
      ensures p == SaveReviewPatch(rating, text, today)
      ensures !isEditing && rating == old(rating) && text == old(text) && item == old(item)
    {
      p := SaveReviewPatch(rating, text, today);
      isEditing := false;
    }

    /** Cancel: the current item's rating and text come back and edit mode ends. */
    method Cancel()
      modifies this
      ensures rating == StoredRating(item) && text == StoredText(item) && !isEditing
      ensures item == old(item)
    {
      rating := StoredRating(item);
      text := StoredText(item);
      isEditing := false;
    }
  }
}
