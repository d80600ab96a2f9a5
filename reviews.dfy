/** server/routes/reviews.js: clients' reviews of professionals. Adding,
    editing or deleting a review recomputes the professional's review count
    and average rating; the statistics route reports how many reviews carry
    each rating, their total and their average. */
module Reviews {
  import opened Common
  import opened Seqs
  import opened Docs
  import opened Model

  // ----- ratings of one professional ------------------------------------

  function IsReviewOf(pid: Id): Doc<Review> -> bool {
    (d: Doc<Review>) => d.val.professionalId == pid
  }

  /** The ratings of the reviews of `pid`, in stored order
      (`$match: { professionalId }`). */
  function RatingsOf(reviews: seq<Doc<Review>>, pid: Id): (r: seq<int>)
    ensures |r| == |Filter(reviews, IsReviewOf(pid))|
  {
    var mine := Filter(reviews, IsReviewOf(pid));
    seq(|mine|, i requires 0 <= i < |mine| => mine[i].val.rating)
  }

  /** Every review of `pid` contributes its rating, and every listed rating
      comes from a review of `pid`. */
  lemma RatingsOfSpec(reviews: seq<Doc<Review>>, pid: Id)
    ensures forall d :: d in reviews && d.val.professionalId == pid ==> d.val.rating in RatingsOf(reviews, pid)
    ensures forall x :: x in RatingsOf(reviews, pid) ==>
      exists d :: d in reviews && d.val.professionalId == pid && d.val.rating == x
  {
    var mine := Filter(reviews, IsReviewOf(pid));
    var r := RatingsOf(reviews, pid);
    forall d | d in reviews && d.val.professionalId == pid ensures d.val.rating in r {
      var i :| 0 <= i < |reviews| && reviews[i] == d;
      assert IsReviewOf(pid)(reviews[i]);
      var j :| 0 <= j < |mine| && mine[j] == d;
      assert r[j] == d.val.rating;
    }
    forall x | x in r ensures exists d :: d in reviews && d.val.professionalId == pid && d.val.rating == x {
      var j :| 0 <= j < |r| && r[j] == x;
      assert mine[j] in reviews && IsReviewOf(pid)(mine[j]);
    }
  }

  function Sum(s: seq<int>): int {
    if s == [] then 0 else Sum(s[..|s| - 1]) + s[|s| - 1]
  }

  /** `$avg: '$rating'` (before rounding to one decimal): the mean rating,
      0 when there is none. */
  function Mean(s: seq<int>): real {
    if |s| == 0 then 0.0 else Sum(s) as real / |s| as real
  }

  /** Number of occurrences of `k` in `s`: none exactly when `k` does not
      occur, and all of `s` exactly when every element is `k`. */
  function CountOf(s: seq<int>, k: int): (n: nat)
    ensures n <= |s|
    ensures n == 0 <==> k !in s
    ensures n == |s| <==> forall i :: 0 <= i < |s| ==> s[i] == k
  {
    if s == [] then 0
    else
      assert s == s[..|s| - 1] + [s[|s| - 1]];
      CountOf(s[..|s| - 1], k) + (if s[|s| - 1] == k then 1 else 0)
  }

  /** The distinct values of `s`, in order of first occurrence: the `_id`s of
      `$group: { _id: '$rating' }`. */
  function Distinct(s: seq<int>): seq<int> {
    if s == [] then []
    else
      var init := Distinct(s[..|s| - 1]);
      if s[|s| - 1] in init then init else init + [s[|s| - 1]]
  }

  predicate NoDuplicates(keys: seq<int>) {
    forall i, j :: 0 <= i < j < |keys| ==> keys[i] != keys[j]
  }

  /** `Distinct` lists each value of `s` exactly once. */
  lemma {:induction false} DistinctSpec(s: seq<int>)
    ensures NoDuplicates(Distinct(s))
    ensures forall k :: k in Distinct(s) <==> k in s
  {
    if s != [] {
      var init := s[..|s| - 1];
      DistinctSpec(init);
      assert s == init + [s[|s| - 1]];
    }
  }

  lemma {:induction false} CountOfAbsent(s: seq<int>, k: int)
    requires k !in s
    ensures CountOf(s, k) == 0
  {
    if s != [] {
      assert s[..|s| - 1] + [s[|s| - 1]] == s;
      CountOfAbsent(s[..|s| - 1], k);
    }
  }

  /** Σ of the counts of `keys` in `s`. */
  function SumCounts(keys: seq<int>, s: seq<int>): int {
    if keys == [] then 0 else SumCounts(keys[..|keys| - 1], s) + CountOf(s, keys[|keys| - 1])
  }

  /** Σ of `key * count` over `keys`. */
  function SumWeighted(keys: seq<int>, s: seq<int>): int {
    if keys == [] then 0 else SumWeighted(keys[..|keys| - 1], s) + keys[|keys| - 1] * CountOf(s, keys[|keys| - 1])
  }

  lemma CountOfSnoc(s: seq<int>, x: int, k: int)
    ensures CountOf(s + [x], k) == CountOf(s, k) + (if x == k then 1 else 0)
  {
    assert (s + [x])[..|s + [x]| - 1] == s;
  }

  lemma {:induction false} SumCountsSnoc(keys: seq<int>, s: seq<int>, x: int)
    requires NoDuplicates(keys)
    ensures SumCounts(keys, s + [x]) == SumCounts(keys, s) + (if x in keys then 1 else 0)
  {
    if keys != [] {
      var init, last := keys[..|keys| - 1], keys[|keys| - 1];
      assert keys == init + [last];
      SumCountsSnoc(init, s, x);
      CountOfSnoc(s, x, last);
      assert x in keys <==> x in init || x == last;
      assert x == last ==> x !in init;
    }
  }

  lemma {:induction false} SumWeightedSnoc(keys: seq<int>, s: seq<int>, x: int)
    requires NoDuplicates(keys)
    ensures SumWeighted(keys, s + [x]) == SumWeighted(keys, s) + (if x in keys then x else 0)
  {
    if keys != [] {
      var init, last := keys[..|keys| - 1], keys[|keys| - 1];
      assert keys == init + [last];
      SumWeightedSnoc(init, s, x);
      assert x in keys <==> x in init || x == last;
      assert x == last ==> x !in init;
      WeightStep(s, x, last);
    }
  }

  /** The weight of `k` grows by `x` exactly when the appended rating is `k`. */
  lemma WeightStep(s: seq<int>, x: int, k: int)
    ensures k * CountOf(s + [x], k) == k * CountOf(s, k) + (if x == k then k else 0)
  {
    CountOfSnoc(s, x, k);
    if x == k {
      MulSucc(k, CountOf(s, k));
    }
  }

  lemma MulSucc(k: int, c: int)
    ensures k * (c + 1) == k * c + k
  {
  }

  /** Grouping the ratings loses none: the counts of the distinct ratings add
      up to the number of ratings, and their weighted sum is the sum of the
      ratings. */
  lemma {:induction false} GroupsPartition(s: seq<int>)
    ensures SumCounts(Distinct(s), s) == |s|
    ensures SumWeighted(Distinct(s), s) == Sum(s)
  {
    if s != [] {
      var init, x := s[..|s| - 1], s[|s| - 1];
      assert s == init + [x];
      GroupsPartition(init);
      GroupsSnoc(init, x);
    }
  }

  /** One more rating keeps the groups a partition of the ratings. */
  lemma GroupsSnoc(init: seq<int>, x: int)
    requires SumCounts(Distinct(init), init) == |init|
    requires SumWeighted(Distinct(init), init) == Sum(init)
    ensures SumCounts(Distinct(init + [x]), init + [x]) == |init + [x]|
    ensures SumWeighted(Distinct(init + [x]), init + [x]) == Sum(init + [x])
  {
    var s := init + [x];
    assert s[..|s| - 1] == init;
    DistinctSpec(init);
    var keys := Distinct(init);
    SumCountsSnoc(keys, init, x);
    SumWeightedSnoc(keys, init, x);
    DistinctSnoc(init, x);
    if x !in keys {
      CountOfAbsent(init, x);
      CountOfSnoc(init, x, x);
      NewKeySnoc(keys, s, x);
    }
  }

  lemma DistinctSnoc(init: seq<int>, x: int)
    ensures Distinct(init + [x]) == if x in Distinct(init) then Distinct(init) else Distinct(init) + [x]
  {
    assert (init + [x])[..|init|] == init;
  }

  /** A key counted once adds one to the counts and itself to the weights. */
  lemma NewKeySnoc(keys: seq<int>, s: seq<int>, x: int)
    requires CountOf(s, x) == 1
    ensures SumCounts(keys + [x], s) == SumCounts(keys, s) + 1
    ensures SumWeighted(keys + [x], s) == SumWeighted(keys, s) + x
  {
    assert (keys + [x])[..|keys|] == keys;
  }

  // ----- the distribution object --------------------------------------------

  /** One property of the `distribution` object: a rating and its count. */
  datatype Bin = Bin(rating: int, count: nat)

  /** `{ 5: 0, 4: 0, 3: 0, 2: 0, 1: 0 }`. */
  const InitialDistribution: seq<Bin> := [Bin(5, 0), Bin(4, 0), Bin(3, 0), Bin(2, 0), Bin(1, 0)]

  /** `distribution[k]`, `undefined` read as 0. */
  function ValueAt(d: seq<Bin>, k: int): nat {
    if d == [] then 0 else if d[0].rating == k then d[0].count else ValueAt(d[1..], k)
  }

  predicate HasKey(d: seq<Bin>, k: int) {
    exists i :: 0 <= i < |d| && d[i].rating == k
  }

  /** `distribution[k] = c`: overwrites the property, or adds it at the end. */
  function SetBin(d: seq<Bin>, k: int, c: nat): (r: seq<Bin>)
    ensures forall j :: ValueAt(r, j) == if j == k then c else ValueAt(d, j)
    ensures forall j :: HasKey(r, j) <==> HasKey(d, j) || j == k
  {
    if d == [] then
      var r := [Bin(k, c)];
      HasKeyCons(r);
      assert r[1..] == [];
      r
    else if d[0].rating == k then
      var r := [Bin(k, c)] + d[1..];
      HasKeyCons(d);
      HasKeyCons(r);
      assert r[1..] == d[1..];
      r
    else
      var rest := SetBin(d[1..], k, c);
      var r := [d[0]] + rest;
      HasKeyCons(d);
      HasKeyCons(r);
      assert r[1..] == rest;
      r
  }

  /** A non-empty object has a key exactly when its first property or the
      rest has it. */
  lemma HasKeyCons(d: seq<Bin>)
    requires d != []
    ensures forall j :: HasKey(d, j) <==> d[0].rating == j || HasKey(d[1..], j)
  {
    forall j | HasKey(d, j) ensures d[0].rating == j || HasKey(d[1..], j) {
      var i :| 0 <= i < |d| && d[i].rating == j;
      if i > 0 { assert d[1..][i - 1].rating == j; }
    }
    forall j | HasKey(d[1..], j) ensures HasKey(d, j) {
      var i :| 0 <= i < |d[1..]| && d[1..][i].rating == j;
      assert d[i + 1].rating == j;
    }
  }

  /** `Object.values(distribution).reduce((a, b) => a + b, 0)`. */
  function Total(d: seq<Bin>): int {
    if d == [] then 0 else d[0].count + Total(d[1..])
  }

  predicate DistinctRatings(d: seq<Bin>) {
    forall i, j :: 0 <= i < j < |d| ==> d[i].rating != d[j].rating
  }

  /** Setting one property changes the total by the difference. */
  lemma {:induction false} SetBinTotal(d: seq<Bin>, k: int, c: nat)
    requires DistinctRatings(d)
    ensures DistinctRatings(SetBin(d, k, c))
    ensures Total(SetBin(d, k, c)) == Total(d) - ValueAt(d, k) + c
  {
    if d != [] && d[0].rating != k {
      SetBinTotal(d[1..], k, c);
      var r := SetBin(d, k, c);
      assert r == [d[0]] + SetBin(d[1..], k, c);
      forall j | 1 <= j < |r| ensures r[j].rating != d[0].rating {
        assert HasKey(SetBin(d[1..], k, c), r[j].rating) by {
          assert SetBin(d[1..], k, c)[j - 1] == r[j];
        }
        if HasKey(d[1..], r[j].rating) {
          var i :| 0 <= i < |d[1..]| && d[1..][i].rating == r[j].rating;
          assert d[i + 1].rating == r[j].rating;
        }
      }
    }
  }

  lemma {:induction false} ZeroCounts(d: seq<Bin>)
    requires forall i :: 0 <= i < |d| ==> d[i].count == 0
    ensures forall k :: ValueAt(d, k) == 0
  {
    if d != [] {
      ZeroCounts(d[1..]);
    }
  }

  datatype ReviewStats = ReviewStats(distribution: seq<Bin>, total: int, average: real)

  /** `GET /stats/:id`: fills the distribution from the rating groups, then
      totals it and averages the ratings. Every rating's count is recorded
      (the five keys 1..5 are always present), the total is the number of
      the professional's reviews, and the average is their mean rating. */
  method Stats(reviews: seq<Doc<Review>>, pid: Id) returns (r: ReviewStats)
    ensures forall k :: ValueAt(r.distribution, k) == CountOf(RatingsOf(reviews, pid), k)
    ensures forall k :: 1 <= k <= 5 ==> HasKey(r.distribution, k)
    ensures r.total == |RatingsOf(reviews, pid)|
    ensures r.average == Mean(RatingsOf(reviews, pid))
  {
    var ratings := RatingsOf(reviews, pid);
    var groups := Distinct(ratings);
    DistinctSpec(ratings);
    var distribution := InitialDistribution;
    StatsInit(groups, ratings);
    for i := 0 to |groups|
      invariant DistinctRatings(distribution)
      invariant forall k :: 1 <= k <= 5 ==> HasKey(distribution, k)
      invariant forall k :: ValueAt(distribution, k) == if k in groups[..i] then CountOf(ratings, k) else 0
      invariant Total(distribution) == SumCounts(groups[..i], ratings)
    {
      StatsStep(distribution, groups, ratings, i);
      distribution := SetBin(distribution, groups[i], CountOf(ratings, groups[i]));
    }
    StatsDone(distribution, ratings);
    GroupsPartition(ratings);
    var total := Total(distribution);
    var average: real := if total > 0 then SumWeighted(groups, ratings) as real / total as real else 0.0;
    StatsAverageIsStoredAverage(ratings);
    return ReviewStats(distribution, total, average);
  }

  /** Before the `forEach`: the five zero counts, no group recorded yet. */
  lemma StatsInit(groups: seq<int>, ratings: seq<int>)
    ensures DistinctRatings(InitialDistribution)
    ensures forall k :: 1 <= k <= 5 ==> HasKey(InitialDistribution, k)
    ensures forall k :: ValueAt(InitialDistribution, k) == if k in groups[..0] then CountOf(ratings, k) else 0
    ensures Total(InitialDistribution) == SumCounts(groups[..0], ratings)
  {
    var d := InitialDistribution;
    assert d[0].rating == 5 && d[1].rating == 4 && d[2].rating == 3;
    assert d[3].rating == 2 && d[4].rating == 1;
    ZeroCounts(d);
  }

  /** After the `forEach`: every group recorded, so every rating's count is
      its number of occurrences (0 for a rating nobody gave). */
  lemma StatsDone(d: seq<Bin>, ratings: seq<int>)
    requires forall k :: ValueAt(d, k) == if k in Distinct(ratings)[..|Distinct(ratings)|] then CountOf(ratings, k) else 0
    requires Total(d) == SumCounts(Distinct(ratings)[..|Distinct(ratings)|], ratings)
    ensures forall k :: ValueAt(d, k) == CountOf(ratings, k)
    ensures Total(d) == |ratings|
  {
    var groups := Distinct(ratings);
    assert groups[..|groups|] == groups;
    DistinctSpec(ratings);
    GroupsPartition(ratings);
    forall k ensures ValueAt(d, k) == CountOf(ratings, k) {
      if k !in groups {
        CountOfAbsent(ratings, k);
      }
    }
  }

  /** One turn of the `forEach` over the groups: the next group's count is
      recorded and the total grows by it. */
  lemma StatsStep(d: seq<Bin>, groups: seq<int>, ratings: seq<int>, i: nat)
    requires i < |groups| && NoDuplicates(groups)
    requires DistinctRatings(d)
    requires forall k :: 1 <= k <= 5 ==> HasKey(d, k)
    requires forall k :: ValueAt(d, k) == if k in groups[..i] then CountOf(ratings, k) else 0
    requires Total(d) == SumCounts(groups[..i], ratings)
    ensures var e := SetBin(d, groups[i], CountOf(ratings, groups[i]));
      && DistinctRatings(e)
      && (forall k :: 1 <= k <= 5 ==> HasKey(e, k))
      && (forall k :: ValueAt(e, k) == if k in groups[..i + 1] then CountOf(ratings, k) else 0)
      && Total(e) == SumCounts(groups[..i + 1], ratings)
  {
    assert groups[..i + 1] == groups[..i] + [groups[i]];
    assert groups[..i + 1][..i] == groups[..i];
    assert groups[i] !in groups[..i];
    SetBinTotal(d, groups[i], CountOf(ratings, groups[i]));
  }

  // ----- the professional's rating fields -----------------------------------

  /** The user with `averageRating` and `totalReviews` recomputed from the
      ratings (rounding to one decimal left out). */
  function Rated(ratings: seq<int>): User -> User {
    (u: User) => u.(averageRating := Mean(ratings), totalReviews := |ratings|)
  }

  /** Ratings within 1..5 average within 1..5. */
  lemma MeanBounds(s: seq<int>)
    requires |s| > 0 && forall i :: 0 <= i < |s| ==> 1 <= s[i] <= 5
    ensures 1.0 <= Mean(s) <= 5.0
  {
    SumBounds(s);
    QuotientBounds(Sum(s) as real, |s| as real);
  }

  lemma QuotientBounds(x: real, n: real)
    requires n > 0.0 && n <= x <= 5.0 * n
    ensures 1.0 <= x / n <= 5.0
  {
    var q := x / n;
    assert q * n == x;
    if q < 1.0 {
      MulNegative(q - 1.0, n);
      assert false;
    }
    if q > 5.0 {
      MulNegative(5.0 - q, n);
      assert false;
    }
  }

  lemma MulNegative(a: real, n: real)
    requires a < 0.0 && n > 0.0
    ensures a * n < 0.0
  {
  }

  lemma {:induction false} SumBounds(s: seq<int>)
    requires forall i :: 0 <= i < |s| ==> 1 <= s[i] <= 5
    ensures |s| <= Sum(s) <= 5 * |s|
  {
    if s != [] {
      SumBounds(s[..|s| - 1]);
    }
  }

  /** `updateProfessionalRating`: stores the count and mean of the
      professional's ratings on their user document (nothing happens when
      that user does not exist). */
  method UpdateProfessionalRating(db: Db, pid: Id)
    requires db.Valid()
    modifies db`users
    ensures db.Valid()
    ensures db.users == Update(old(db.users), pid, Rated(RatingsOf(db.reviews, pid)))
    ensures Ids(db.users) == Ids(old(db.users))
    ensures forall i :: 0 <= i < |db.users| && db.users[i].id == pid ==>
      db.users[i].val.totalReviews == |RatingsOf(db.reviews, pid)|
      && db.users[i].val.averageRating == Mean(RatingsOf(db.reviews, pid))
      && (|RatingsOf(db.reviews, pid)| == 0 ==> db.users[i].val.averageRating == 0.0)
  {
    var f := Rated(RatingsOf(db.reviews, pid));
    var rated := Update(db.users, pid, f);
    UpdateSpec(db.users, pid, f);
    forall i | 0 <= i < |rated| ensures rated[i].id < db.nextId {
      assert rated[i].id == db.users[i].id;
    }
    db.users := rated;
  }

  /** The statistics route's average and the stored average agree: both are
      the mean rating of the professional's reviews. */
  lemma StatsAverageIsStoredAverage(s: seq<int>)
    ensures (if SumCounts(Distinct(s), s) > 0 then SumWeighted(Distinct(s), s) as real / SumCounts(Distinct(s), s) as real else 0.0)
         == Mean(s)
  {
    GroupsPartition(s);
  }

  // ----- the routes ---------------------------------------------------------

  /** The body of `POST /add`; `None` is a missing rating or service. */
  datatype AddRequest = AddRequest(professionalId: Id, rating: Option<int>, comment: string, serviceId: Option<Id>)

  /** `!rating || rating < 1 || rating > 5`. */
  predicate ValidRating(rating: Option<int>) {
    rating.Some? && 1 <= rating.value <= 5
  }

  /** `POST /add`: a rating outside 1..5 is refused (400), an unknown
      professional too (404); otherwise the caller's review is stored and the
      professional's rating fields recomputed. */
  method Add(db: Db, caller: Id, req: AddRequest) returns (r: Result<Id>)
    requires db.Valid()
    modifies db`reviews, db`users, db`nextId
    ensures db.Valid()
    ensures !ValidRating(req.rating) ==> r == Err(BadRequest)
    ensures ValidRating(req.rating) && req.professionalId !in Ids(old(db.users)) ==> r == Err(NotFound)
    ensures r.Err? ==> db.reviews == old(db.reviews) && db.users == old(db.users)
    ensures r.Ok? <==> ValidRating(req.rating) && req.professionalId in Ids(old(db.users))
    ensures r.Ok? ==>
      && r.value !in Ids(old(db.reviews))
      && db.reviews == old(db.reviews) + [Doc(r.value, Review(req.professionalId, caller, req.rating.value, OrElse(req.comment, ""), req.serviceId))]
      && db.users == Update(old(db.users), req.professionalId, Rated(RatingsOf(db.reviews, req.professionalId)))
    ensures db.services == old(db.services) && db.bookings == old(db.bookings) && db.events == old(db.events)
      && db.settings == old(db.settings)
  {
    if !ValidRating(req.rating) {
      return Err(BadRequest);
    }
    var professional := Find(db.users, req.professionalId);
    if professional.None? {
      return Err(NotFound);
    }
    var review := Review(req.professionalId, caller, req.rating.value, OrElse(req.comment, ""), req.serviceId);
    var id := StoreReview(db, review);
    UpdateProfessionalRating(db, req.professionalId);
    return Ok(id);
  }

  /** `insertOne` on the reviews: the review is appended under a fresh
      identifier. */
  method StoreReview(db: Db, review: Review) returns (id: Id)
    requires db.Valid()
    modifies db`reviews, db`nextId
    ensures db.Valid()
    ensures id !in Ids(old(db.reviews))
    ensures db.reviews == old(db.reviews) + [Doc(id, review)]
  {
    AppendFresh(db.reviews, db.nextId, review);
    id := db.FreshId();
    db.reviews := db.reviews + [Doc(id, review)];
  }

  /** `findOne({ _id: id, clientId: caller })`. */
  function FindOwn(reviews: seq<Doc<Review>>, id: Id, caller: Id): (r: Option<Review>)
    ensures r.Some? <==> Find(reviews, id).Some? && Find(reviews, id).value.clientId == caller
    ensures r.Some? ==> r == Find(reviews, id)
  {
    match Find(reviews, id)
    case Some(review) => if review.clientId == caller then Some(review) else None
    case None => None
  }

  /** The `$set` of `PUT /update/:id`: the rating when a truthy one is given
      (not range-checked again), the comment when one is given. */
  function Edited(rating: Option<int>, comment: Option<string>): Review -> Review {
    (v: Review) =>
      v.(rating := if rating.Some? && rating.value != 0 then rating.value else v.rating,
         comment := if comment.Some? then comment.value else v.comment)
  }

  /** `PUT /update/:id`: only the caller's own review can be edited (404
      otherwise, nothing changes); the edit is applied to that review alone
      and the professional's rating fields are recomputed. */
  method UpdateReview(db: Db, caller: Id, id: Id, rating: Option<int>, comment: Option<string>) returns (r: Result<Id>)
    requires db.Valid()
    modifies db`reviews, db`users
    ensures db.Valid()
    ensures FindOwn(old(db.reviews), id, caller).None? <==> r == Err(NotFound)
    ensures r.Err? ==> db.reviews == old(db.reviews) && db.users == old(db.users)
    ensures r.Ok? ==>
      && db.reviews == Update(old(db.reviews), id, Edited(rating, comment))
      && Ids(db.reviews) == Ids(old(db.reviews))
      && var pid := FindOwn(old(db.reviews), id, caller).value.professionalId;
         db.users == Update(old(db.users), pid, Rated(RatingsOf(db.reviews, pid)))
  {
    var review := FindOwn(db.reviews, id, caller);
    if review.None? {
      return Err(NotFound);
    }
    var f := Edited(rating, comment);
    var edited := Update(db.reviews, id, f);
    UpdateSpec(db.reviews, id, f);
    UpdateIdsBelow(db.reviews, id, f, db.nextId);
    db.reviews := edited;
    UpdateProfessionalRating(db, review.value.professionalId);
    return Ok(id);
  }

  /** `DELETE /delete/:id`: only the caller's own review can be deleted (404
      otherwise, nothing changes); exactly that review is removed and the
      professional's rating fields are recomputed. */
  method DeleteReview(db: Db, caller: Id, id: Id) returns (r: Result<Id>)
    requires db.Valid()
    modifies db`reviews, db`users
    ensures db.Valid()
    ensures FindOwn(old(db.reviews), id, caller).None? <==> r == Err(NotFound)
    ensures r.Err? ==> db.reviews == old(db.reviews) && db.users == old(db.users)
    ensures r.Ok? ==>
      && db.reviews == Without(old(db.reviews), id)
      && Ids(db.reviews) == Ids(old(db.reviews)) - {id}
      && (forall d :: d in db.reviews <==> d in old(db.reviews) && d.id != id)
      && var pid := FindOwn(old(db.reviews), id, caller).value.professionalId;
         db.users == Update(old(db.users), pid, Rated(RatingsOf(db.reviews, pid)))
  {
    var review := FindOwn(db.reviews, id, caller);
    if review.None? {
      return Err(NotFound);
    }
    WithoutSpec(db.reviews, id);
    var rest := Without(db.reviews, id);
    forall i | 0 <= i < |rest| ensures rest[i].id < db.nextId {
      assert rest[i] in db.reviews;
    }
    db.reviews := rest;
    UpdateProfessionalRating(db, review.value.professionalId);
    return Ok(id);
  }
}
