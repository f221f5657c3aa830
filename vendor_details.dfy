/**
 * The vendor page: the vendor's reviews, the star rows, the rating
 * histogram, the collapsible review list and the image gallery.
 * Ratings are tenths of a star, so `Math.floor(rating)` is `rating10 / 10`
 * (Dafny's division rounds down for a positive divisor).
 */
module VendorDetails {
  import opened Wrappers
  import opened Seqs
  import opened Types

  function ForVendor(vendorId: string): VendorReview -> bool {
    (r: VendorReview) => r.vendorId == vendorId
  }

  /** `reviews`: the reviews written about this vendor, in their original order. */
  function ReviewsOf(all: seq<VendorReview>, vendorId: string): seq<VendorReview> {
    Filter(all, ForVendor(vendorId))
  }

  lemma ReviewsOfRule(all: seq<VendorReview>, vendorId: string, r: VendorReview)
    ensures IsSubsequence(ReviewsOf(all, vendorId), all)
    ensures r in ReviewsOf(all, vendorId) <==> r in all && r.vendorId == vendorId
  {
    FilterIsSubsequence(all, ForVendor(vendorId));
    FilterMembership(all, ForVendor(vendorId), r);
  }

  /** `Math.floor(rating)`. */
  function WholeStars(rating10: int): int {
    rating10 / 10
  }

  /** `renderStars`: star `i` of five is filled when `i < Math.floor(rating)`. */
  function Stars(rating10: int): seq<bool> {
    seq(5, i => i < WholeStars(rating10))
  }

  function IsFilled(): bool -> bool {
    b => b
  }

  function Min(a: int, b: int): int {
    if a < b then a else b
  }

  function Max(a: int, b: int): int {
    if a < b then b else a
  }

  /** The first `n` of `seq(.., i => i < m)` hold `min(n, max(0, m))` filled stars. */
  lemma {:induction false} FilledPrefix(n: nat, m: int)
    ensures Count(seq(n, i => i < m), IsFilled()) == Min(n, Max(0, m))
    decreases n
  {
    if n > 0 {
      var s := seq(n, i => i < m);
      assert s == seq(n - 1, i => i < m) + [n - 1 < m];
      FilterAppend(seq(n - 1, i => i < m), [n - 1 < m], IsFilled());
      FilledPrefix(n - 1, m);
    }
  }

  /** The number of filled stars is `min(5, max(0, floor(rating)))`. */
  lemma FilledStars(rating10: int)
    ensures Count(Stars(rating10), IsFilled()) == Min(5, Max(0, WholeStars(rating10)))
  {
    assert Stars(rating10) == seq(5, i => i < WholeStars(rating10));
    FilledPrefix(5, WholeStars(rating10));
  }

  /** A 4.8 rating shows four filled stars, a 5.0 rating five. */
  lemma StarsFixture()
    ensures Count(Stars(48), IsFilled()) == 4
    ensures Count(Stars(50), IsFilled()) == 5
  {
    FilledStars(48);
    FilledStars(50);
  }

  function FloorIs(stars: int): VendorReview -> bool {
    (r: VendorReview) => WholeStars(r.rating10) == stars
  }

  /** The histogram bar for `stars`: the reviews whose rating rounds down to it. */
  function BucketCount(reviews: seq<VendorReview>, stars: int): nat {
    Count(reviews, FloorIs(stars))
  }

  /** The five bars, for 5 down to 1 stars. */
  function Histogram(reviews: seq<VendorReview>): seq<nat> {
    [BucketCount(reviews, 5), BucketCount(reviews, 4), BucketCount(reviews, 3), BucketCount(reviews, 2), BucketCount(reviews, 1)]
  }

  function HistogramTotal(reviews: seq<VendorReview>): nat {
    var h := Histogram(reviews);
    h[0] + h[1] + h[2] + h[3] + h[4]
  }

  lemma BucketStep(reviews: seq<VendorReview>, stars: int)
    requires reviews != []
    ensures BucketCount(reviews, stars) == (if WholeStars(reviews[0].rating10) == stars then 1 else 0) + BucketCount(reviews[1..], stars)
  {
    assert Filter(reviews, FloorIs(stars)) ==
      (if FloorIs(stars)(reviews[0]) then [reviews[0]] else []) + Filter(reviews[1..], FloorIs(stars));
  }

  /**
   * A review falls in at most one bar (none when it rounds to 0), so the
   * bars together never count more reviews than there are.
   */
  lemma {:induction false} HistogramAtMostReviews(reviews: seq<VendorReview>)
    ensures HistogramTotal(reviews) <= |reviews|
    decreases |reviews|
  {
    if reviews != [] {
      BucketStep(reviews, 5);
      BucketStep(reviews, 4);
      BucketStep(reviews, 3);
      BucketStep(reviews, 2);
      BucketStep(reviews, 1);
      HistogramAtMostReviews(reviews[1..]);
    }
  }

  /** The bar width in percent, guarded against an empty review list. */
  function Percentage(count: nat, total: nat): real {
    if total > 0 then (count as real / total as real) * 100.0 else 0.0
  }

  lemma PercentageBounds(count: nat, total: nat)
    ensures total == 0 ==> Percentage(count, total) == 0.0
    ensures count <= total ==> 0.0 <= Percentage(count, total) <= 100.0
  {
    if total > 0 && count <= total {
      assert count as real / total as real <= 1.0;
    }
  }

  /** The collapsed list shows the first three reviews, the expanded list all of them. */
  function ShownReviews(reviews: seq<VendorReview>, showAll: bool): seq<VendorReview> {
    reviews[..if showAll then |reviews| else Min(3, |reviews|)]
  }

  /** The "Show All" toggle is offered only for more than three reviews. */
  predicate OffersToggle(reviews: seq<VendorReview>) {
    |reviews| > 3
  }

  /**
   * Expanded shows every review; collapsed shows a prefix of at most
   * three; without the toggle both show the same, complete list.
   */
  lemma ShownReviewsRule(reviews: seq<VendorReview>)
    ensures ShownReviews(reviews, true) == reviews
    ensures |ShownReviews(reviews, false)| == Min(3, |reviews|)
    ensures ShownReviews(reviews, false) == reviews[..|ShownReviews(reviews, false)|]
    ensures !OffersToggle(reviews) ==> ShownReviews(reviews, false) == reviews
    ensures OffersToggle(reviews) ==> |ShownReviews(reviews, false)| == 3 < |ShownReviews(reviews, true)|
  {
    assert reviews[..|reviews|] == reviews;
  }

  /** The tabs of the page. */
  datatype Tab = Overview | Portfolio | Reviews | Contact

  /** The page's state for one vendor and the reviews written about it. */
  class VendorDetailsView {
    const vendor: Vendor
    const reviews: seq<VendorReview>
    var selectedImageIndex: int
    var activeTab: Tab
    var isLiked: bool
    var showAllReviews: bool

    /** The reviews are this vendor's; the image shown is the first one or that of a thumbnail. */
    ghost predicate Valid()
      reads this
    {
      && (forall k :: 0 <= k < |reviews| ==> reviews[k].vendorId == vendor.id)
      && (selectedImageIndex == 0 || (|vendor.gallery| > 1 && 0 <= selectedImageIndex < |vendor.gallery|))
    }

    constructor (v: Vendor, allReviews: seq<VendorReview>)
      ensures vendor == v && reviews == ReviewsOf(allReviews, v.id)
      ensures selectedImageIndex == 0 && activeTab == Overview && !isLiked && !showAllReviews
      ensures Valid()
    {
      vendor := v;
      reviews := ReviewsOf(allReviews, v.id);
      selectedImageIndex := 0;
      activeTab := Overview;
      isLiked := false;
      showAllReviews := false;
    }

    /** `vendor.gallery[selectedImageIndex]`: undefined beyond the gallery. */
    method MainImage() returns (image: Option<string>)
      requires Valid()
      ensures image.Some? <==> |vendor.gallery| > 0
      ensures image.Some? ==> image.value == vendor.gallery[selectedImageIndex]
    {
      if 0 <= selectedImageIndex < |vendor.gallery| {
        image := Some(vendor.gallery[selectedImageIndex]);
      } else {
        image := None;
      }
    }

    /** A thumbnail click; thumbnails exist only for a gallery of two or more. */
    method SelectImage(index: int)
      requires Valid() && |vendor.gallery| > 1 && 0 <= index < |vendor.gallery|
      modifies this
      ensures selectedImageIndex == index
      ensures activeTab == old(activeTab) && isLiked == old(isLiked) && showAllReviews == old(showAllReviews)
      ensures Valid()
    {
      selectedImageIndex := index;
    }

    method SelectTab(tab: Tab)
      requires Valid()
      modifies this
      ensures activeTab == tab
      ensures selectedImageIndex == old(selectedImageIndex) && isLiked == old(isLiked) && showAllReviews == old(showAllReviews)
      ensures Valid()
    {
      activeTab := tab;
    }

    method ToggleLike()
      requires Valid()
      modifies this
      ensures isLiked == !old(isLiked)
      ensures selectedImageIndex == old(selectedImageIndex) && activeTab == old(activeTab) && showAllReviews == old(showAllReviews)
      ensures Valid()
    {
      isLiked := !isLiked;
    }

    /** "Show All" / "Show Less", offered only for more than three reviews. */
    method ToggleShowAll()
      requires Valid() && OffersToggle(reviews)
      modifies this
      ensures showAllReviews == !old(showAllReviews)
      ensures selectedImageIndex == old(selectedImageIndex) && activeTab == old(activeTab) && isLiked == old(isLiked)
      ensures Valid()
    {
      showAllReviews := !showAllReviews;
    }

    /** The reviews on screen. */
    method Shown() returns (shown: seq<VendorReview>)
      requires Valid()
      ensures shown == ShownReviews(reviews, showAllReviews)
      ensures forall r :: r in shown ==> r.vendorId == vendor.id
    {
      shown := ShownReviews(reviews, showAllReviews);
      forall r | r in shown ensures r.vendorId == vendor.id {
        assert r in reviews;
      }
    }
  }
}
