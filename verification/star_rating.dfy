/**
 * The five-star rating widget: a click on star `index` sets the rating to
 * `index`, or clears it to 0 when that star is the current rating; hovering
 * previews a rating; and the rating follows the initial-rating prop.
 */
module StarRatingWidget {
  import opened Common

  const StarCount := 5

  /** The rating after a click on star `index`: the same star toggles the rating off. */
  function NextRating(current: real, index: int): (r: real)
    requires 1 <= index <= StarCount
    ensures r == 0.0 <==> current == index as real
    ensures r != 0.0 ==> r == index as real
    ensures 0.0 <= r <= StarCount as real
  {
    if current == index as real then 0.0 else index as real
  }

  /**
   * Clicking the same star twice gives back the rating the star stands for
   * when it was the current rating, and clears the rating otherwise.
   */
  lemma ClickTwice(current: real, index: int)
    requires 1 <= index <= StarCount
    ensures NextRating(NextRating(current, index), index) == (if current == index as real then current else 0.0)
  {
  }

  /** Star `i` is drawn filled when `i` is at most the hover index, or the rating when nothing is hovered. */
  predicate StarFilled(i: int, hover: int, rating: real) {
    i as real <= (if hover != 0 then hover as real else rating)
  }

  /** The filled stars are always a prefix of the five: a filled star has every lower star filled too. */
  lemma FilledStarsFormPrefix(hover: int, rating: real)
    ensures forall i, j :: 1 <= i <= j <= StarCount && StarFilled(j, hover, rating) ==> StarFilled(i, hover, rating)
  {
  }

  /** While star `h` is hovered, exactly stars 1..h are filled, whatever the rating. */
  lemma HoverFillsFirstStars(hover: int, rating: real)
    requires 1 <= hover <= StarCount
    ensures forall i :: 1 <= i <= StarCount ==> (StarFilled(i, hover, rating) <==> i <= hover)
  {
  }

  /** With no hover and a whole rating k in 0..5, exactly stars 1..k are filled. */
  lemma WholeRatingFillsFirstStars(hover: int, rating: real, k: int)
    requires hover == 0 && 0 <= k <= StarCount && rating == k as real
    ensures forall i :: 1 <= i <= StarCount ==> (StarFilled(i, hover, rating) <==> i <= k)
  {
  }

  /** One star-rating widget. */
  class StarRating {
    const readonly: bool
    var rating: real
    var hover: int

    /** The hover index is 0 (nothing hovered) or a star index. */
    ghost predicate Valid()
      reads this
    {
      0 <= hover <= StarCount
    }

    constructor(initialRating: real, readonly: bool)
      ensures Valid() && rating == initialRating && hover == 0 && this.readonly == readonly
    {
      this.readonly := readonly;
      rating := initialRating;
      hover := 0;
    }

    /** The effect on the initial-rating prop: the rating follows it. */
    method SyncInitialRating(initialRating: real)
      modifies this
      ensures rating == initialRating && hover == old(hover)
    {
      rating := initialRating;
    }

    /**
     * `handleClick(index)`: ignored when read-only; otherwise the rating
     * becomes `NextRating(rating, index)` and that same value is reported
     * to the change callback (`Some(v)`; `None` when nothing is reported).
     */
    method Click(index: int) returns (reported: Option<real>)
      requires 1 <= index <= StarCount
      modifies this
      ensures readonly ==> rating == old(rating) && reported.None?
      ensures !readonly ==> rating == NextRating(old(rating), index) && reported == Some(rating)
      ensures !readonly ==> 0.0 <= rating <= StarCount as real
      ensures hover == old(hover)
    {
      if readonly {
        return None;
      }
      rating := NextRating(rating, index);
      reported := Some(rating);
    }

    /** Entering star `index` previews it, unless read-only. */
    method MouseEnter(index: int)
      requires Valid() && 1 <= index <= StarCount
      modifies this
      ensures Valid() && rating == old(rating)
      ensures hover == (if readonly then old(hover) else index)
    {
      if !readonly {
        hover := index;
      }
    }

    /** Leaving a star ends the preview, unless read-only. */
    method MouseLeave()
      requires Valid()
      modifies this
      ensures Valid() && rating == old(rating)
      ensures hover == (if readonly then old(hover) else 0)
    {
      if !readonly {
        hover := 0;
      }
    }

    /** Whether star `i` is drawn filled. */
    function Filled(i: int): bool
      reads this
    {
      StarFilled(i, hover, rating)
    }
  }
}
