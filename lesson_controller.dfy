/** The decision rules of server/controllers/lessonController.js: the paged,
    filtered lesson listing of `getLessons` and the per-user rating upsert of
    `rateLesson`. The store is a sequence of lesson records in the listing's
    sort order; the caller's id and the clock are parameters. */
module LessonController {
  import opened Common
  import opened Paging

  /** The route accepts page sizes 1 to 50; 10 is the default. */
  const MaxLessonPageSize: nat := 50
  const DefaultLessonPageSize: nat := 10

  datatype Rating = Rating(user: string, rating: int, comment: Option<string>, createdAt: int)

  /** A lesson as far as listing and rating read and write it. */
  datatype LessonRecord = LessonRecord(
    id: string,
    language: string,
    level: string,
    category: string,
    isPublished: bool,
    ratings: seq<Rating>,
    averageRating: real,
    totalRatings: nat)

  /** The optional `language`, `level` and `category` query filters. */
  datatype LessonQuery = LessonQuery(language: Option<string>, level: Option<string>, category: Option<string>)

  predicate Matches(l: LessonRecord, q: LessonQuery)
  {
    l.isPublished
    && (q.language.Some? ==> l.language == q.language.value)
    && (q.level.Some? ==> l.level == q.level.value)
    && (q.category.Some? ==> l.category == q.category.value)
  }

  /** The lessons `Lesson.find(query)` selects, in the store's order. */
  function Selected(lessons: seq<LessonRecord>, q: LessonQuery): (r: seq<LessonRecord>)
    ensures forall x :: x in r <==> x in lessons && Matches(x, q)
    ensures IsSubsequence(r, lessons)
  {
    FilterIsSubsequence(lessons, (l: LessonRecord) => Matches(l, q));
    Filter(lessons, (l: LessonRecord) => Matches(l, q))
  }

  datatype Pagination = Pagination(page: nat, pages: nat, total: nat, limit: nat)

  datatype LessonListing = LessonListing(lessons: seq<LessonRecord>, pagination: Pagination)

  /** The reply of `getLessons`: 400 or the listing. */
  datatype LessonsReply = Rejected | Listed(listing: LessonListing)

  /** The categories the route accepts (`isIn` on `category`). */
  const LessonCategories: set<string> :=
    {"vocabulary", "grammar", "conversation", "pronunciation", "culture", "listening", "reading", "writing"}

  /** What the route's validators accept: each given filter from its list, a
      page of at least 1 and a page size from 1 to 50. */
  predicate ListingRequestValid(q: LessonQuery, page: Option<int>, limit: Option<int>)
  {
    && (q.language.Some? ==> q.language.value in SupportedLanguages)
    && (q.level.Some? ==> q.level.value in LevelNames)
    && (q.category.Some? ==> q.category.value in LessonCategories)
    && (page.Some? ==> page.value >= 1)
    && (limit.Some? ==> 1 <= limit.value <= MaxLessonPageSize)
  }

  /** `getLessons`: 400 when the validators reject the query; otherwise the
      requested page of the selection, page 1 and 10 per page unless the
      query says otherwise. */
  function GetLessons(store: seq<LessonRecord>, q: LessonQuery, page: Option<int>, limit: Option<int>): (r: LessonsReply)
    ensures r.Listed? <==> ListingRequestValid(q, page, limit)
    ensures r.Listed? ==>
      var p := PageNumber(page);
      var n := PageSize(limit);
      var selected := Selected(store, q);
      && r.listing.pagination.page == p && r.listing.pagination.limit == n
      && r.listing.pagination.total == |selected|
      && n * (r.listing.pagination.pages - 1) < |selected| <= n * r.listing.pagination.pages
      && r.listing.lessons == PageOf(selected, p, n)
      && |r.listing.lessons| == Max(0, Min(n, |selected| - StartIndex(p, n)))
      && (forall i :: 0 <= i < |r.listing.lessons| ==>
            StartIndex(p, n) + i < |selected| && r.listing.lessons[i] == selected[StartIndex(p, n) + i])
  {
    if !ListingRequestValid(q, page, limit) then Rejected
    else
      var p := PageNumber(page);
      var n := PageSize(limit);
      var selected := Selected(store, q);
      Listed(LessonListing(PageOf(selected, p, n), Pagination(p, TotalPages(|selected|, n), |selected|, n)))
  }

  /** Every listed lesson is a stored, published lesson matching the query. */
  lemma ListedLessonsMatch(store: seq<LessonRecord>, q: LessonQuery, page: Option<int>, limit: Option<int>)
    requires ListingRequestValid(q, page, limit)
    ensures forall x :: x in GetLessons(store, q, page, limit).listing.lessons ==> x in store && Matches(x, q)
  {
    var r := GetLessons(store, q, page, limit).listing;
    var selected := Selected(store, q);
    forall x | x in r.lessons ensures x in store && Matches(x, q) {
      var i :| 0 <= i < |r.lessons| && r.lessons[i] == x;
      assert selected[StartIndex(PageNumber(page), PageSize(limit)) + i] == x;
    }
  }

  /** The `page` query parameter, 1 by default. */
  function PageNumber(page: Option<int>): (p: nat)
    requires page.Some? ==> page.value >= 1
    ensures p >= 1 && (page.Some? ==> p == page.value) && (page.None? ==> p == 1)
  {
    if page.Some? then page.value else 1
  }

  /** The `limit` query parameter, 10 by default. */
  function PageSize(limit: Option<int>): (n: nat)
    requires limit.Some? ==> limit.value >= 1
    ensures 1 <= n && (limit.Some? ==> n == limit.value) && (limit.None? ==> n == DefaultLessonPageSize)
  {
    if limit.Some? then limit.value else DefaultLessonPageSize
  }

  /** At most one rating per user. */
  predicate OneRatingPerUser(rs: seq<Rating>)
  {
    forall i, j :: 0 <= i < j < |rs| ==> rs[i].user != rs[j].user
  }

  /** The route's `comment` bound, in characters. */
  const MaxCommentLength: nat := 500

  /** What the route's validators accept: an integer rating from 1 to 5 and
      an optional comment of at most 500 characters. The route's `trim()`
      sanitizer replaces the body's comment by its trimmed form before the
      length check and before the handler reads it, so `comment` here is
      the trimmed text. */
  predicate RatingRequestValid(rating: int, comment: Option<string>)
  {
    1 <= rating <= 5 && (comment.Some? ==> |comment.value| <= MaxCommentLength)
  }

  /** Ratings in the range the route accepts. */
  predicate RatingsInRange(rs: seq<Rating>)
  {
    forall i :: 0 <= i < |rs| ==> 1 <= rs[i].rating <= 5
  }

  /** `ratings.reduce((sum, r) => sum + r.rating, 0)`. */
  function SumRatings(rs: seq<Rating>): int
  {
    if rs == [] then 0 else SumRatings(rs[..|rs| - 1]) + rs[|rs| - 1].rating
  }

  lemma {:induction false} SumRatingsBounds(rs: seq<Rating>)
    requires RatingsInRange(rs)
    ensures |rs| <= SumRatings(rs) <= 5 * |rs|
  {
    if rs != [] {
      var init := rs[..|rs| - 1];
      assert RatingsInRange(init) by {
        forall i | 0 <= i < |init| ensures 1 <= init[i].rating <= 5 {
          assert init[i] == rs[i];
        }
      }
      SumRatingsBounds(init);
    }
  }

  /** Where the user's existing rating sits (`findIndex`). */
  function RatingOf(rs: seq<Rating>, user: string): (k: Option<nat>)
    ensures k.Some? ==> k.value < |rs| && rs[k.value].user == user
    ensures k.Some? ==> forall i :: 0 <= i < k.value ==> rs[i].user != user
    ensures k.None? ==> forall i :: 0 <= i < |rs| ==> rs[i].user != user
  {
    FindFirst(rs, (r: Rating) => r.user == user)
  }

  /** The ratings after the user rates: their earlier rating is replaced in
      place, or the new one appended. */
  function Upserted(rs: seq<Rating>, newRating: Rating): (r: seq<Rating>)
    ensures RatingOf(rs, newRating.user).Some? ==> |r| == |rs|
    ensures RatingOf(rs, newRating.user).None? ==> |r| == |rs| + 1 && r == rs + [newRating]
    ensures newRating in r
    ensures forall i :: 0 <= i < |rs| && rs[i].user != newRating.user ==> r[i] == rs[i]
    ensures OneRatingPerUser(rs) ==> OneRatingPerUser(r)
    ensures RatingsInRange(rs) && 1 <= newRating.rating <= 5 ==> RatingsInRange(r)
  {
    match RatingOf(rs, newRating.user)
    case Some(k) =>
      assert rs[k := newRating][k] == newRating;
      rs[k := newRating]
    case None => rs + [newRating]
  }

  /** Rating again replaces the first rating: only the latest counts. */
  lemma RatingAgainReplaces(rs: seq<Rating>, first: Rating, second: Rating)
    requires first.user == second.user
    ensures Upserted(Upserted(rs, first), second) == Upserted(rs, second)
  {
    var once := Upserted(rs, first);
    match RatingOf(rs, first.user)
    case Some(k) =>
      assert RatingOf(once, first.user) == Some(k) by {
        assert once[k] == first;
        forall i | 0 <= i < k ensures once[i].user != first.user {
          assert once[i] == rs[i];
        }
      }
    case None =>
      assert RatingOf(once, first.user) == Some(|rs|) by {
        assert once[|rs|] == first;
        forall i | 0 <= i < |rs| ensures once[i].user != first.user {
          assert once[i] == rs[i];
        }
      }
  }

  /** `averageRating`, the mean of the ratings. */
  function MeanRating(rs: seq<Rating>): (m: real)
    requires |rs| > 0
    ensures m * (|rs| as real) == SumRatings(rs) as real
  {
    SumRatings(rs) as real / |rs| as real
  }

  /** Ratings of 1 to 5 average to a value between 1 and 5. */
  lemma MeanRatingInRange(rs: seq<Rating>)
    requires |rs| > 0 && RatingsInRange(rs)
    ensures 1.0 <= MeanRating(rs) <= 5.0
  {
    SumRatingsBounds(rs);
    var n := |rs| as real;
    var s := SumRatings(rs) as real;
    assert n <= s <= 5.0 * n;
    MeanBetween(MeanRating(rs), n, s);
  }

  /** A mean `m` of `k` values whose sum `s` lies between k and 5k. */
  lemma MeanBetween(m: real, k: real, s: real)
    requires k > 0.0 && m * k == s && k <= s <= 5.0 * k
    ensures 1.0 <= m <= 5.0
  {
    if m < 1.0 {
      ScaleStrict(m, 1.0, k);
    }
    if m > 5.0 {
      ScaleStrict(5.0, m, k);
    }
  }

  lemma ScaleStrict(a: real, b: real, n: real)
    requires a < b && n > 0.0
    ensures a * n < b * n
  {
  }

  /** The lesson after a successful rating. */
  function Rated(l: LessonRecord, newRating: Rating): (r: LessonRecord)
    ensures r.totalRatings == |r.ratings| && |r.ratings| > 0
    ensures r.averageRating == MeanRating(r.ratings)
    ensures r.ratings == Upserted(l.ratings, newRating)
    ensures r.id == l.id && r.isPublished == l.isPublished
  {
    var rs := Upserted(l.ratings, newRating);
    l.(ratings := rs, averageRating := MeanRating(rs), totalRatings := |rs|)
  }

  /** What rating keeps true of a lesson: ratings from 1 to 5, one per user,
      and `totalRatings` their number. */
  predicate RatingsValid(l: LessonRecord)
  {
    RatingsInRange(l.ratings) && OneRatingPerUser(l.ratings) && l.totalRatings == |l.ratings|
  }

  /** A valid rating keeps the lesson valid, and its average within 1 to 5. */
  lemma RatedKeepsValid(l: LessonRecord, newRating: Rating)
    requires RatingsValid(l) && 1 <= newRating.rating <= 5
    ensures RatingsValid(Rated(l, newRating))
    ensures 1.0 <= Rated(l, newRating).averageRating <= 5.0
  {
    MeanRatingInRange(Rated(l, newRating).ratings);
  }

  /** The in-place update of `rateLesson`: replace or push, then recompute
      the average and the count. */
  method ApplyRating(lesson: LessonRecord, newRating: Rating) returns (r: LessonRecord)
    ensures r == Rated(lesson, newRating)
  {
    var ratings := lesson.ratings;
    var existing := RatingOf(ratings, newRating.user);
    if existing.Some? {
      ratings := ratings[existing.value := newRating];
    } else {
      ratings := ratings + [newRating];
    }
    var totalRating := SumRatings(ratings);
    r := lesson.(averageRating := totalRating as real / |ratings| as real);
    r := r.(ratings := ratings, totalRatings := |ratings|);
  }

  /** The stored lessons. */
  class LessonStore {
    var lessons: seq<LessonRecord>

    predicate Valid()
      reads this
    {
      forall i :: 0 <= i < |lessons| ==> RatingsValid(lessons[i])
    }

    constructor (lessons: seq<LessonRecord>)
      ensures this.lessons == lessons
    {
      this.lessons := lessons;
    }

    /** `findOne({ _id: id, isPublished: true })`. */
    function FindPublished(id: string): (k: Option<nat>)
      reads this
      ensures k.Some? ==> k.value < |lessons| && lessons[k.value].id == id && lessons[k.value].isPublished
      ensures k.None? ==> forall i :: 0 <= i < |lessons| ==> !(lessons[i].id == id && lessons[i].isPublished)
    {
      FindFirst(lessons, (l: LessonRecord) => l.id == id && l.isPublished)
    }

    /** `rateLesson` by user `caller`: 400 when the route's validators reject
        the body, 404 unless a published lesson has that id, otherwise the
        rating is upserted and the average and count recomputed. */
    method RateLesson(id: string, caller: string, rating: int, comment: Option<string>, now: int)
      returns (status: int)
      requires Valid()
      modifies this
      ensures Valid()
      ensures !RatingRequestValid(rating, comment) ==> status == 400 && lessons == old(lessons)
      ensures RatingRequestValid(rating, comment) && old(FindPublished(id)).None? ==>
        status == 404 && lessons == old(lessons)
      ensures RatingRequestValid(rating, comment) && old(FindPublished(id)).Some? ==>
        var k := old(FindPublished(id)).value;
        status == 200 && lessons == old(lessons)[k := Rated(old(lessons)[k], Rating(caller, rating, comment, now))]
        && 1.0 <= lessons[k].averageRating <= 5.0
    {
      if !(1 <= rating <= 5 && (comment.Some? ==> |comment.value| <= MaxCommentLength)) {
        return 400;
      }
      var found := FindPublished(id);
      if found.None? {
        return 404;
      }
      var k := found.value;
      var newRating := Rating(caller, rating, comment, now);
      var lesson := ApplyRating(lessons[k], newRating);
      RatedKeepsValid(lessons[k], newRating);
      lessons := lessons[k := lesson];
      status := 200;
    }
  }
}
