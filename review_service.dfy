/** The review service: the `reviews` table (rating CHECK 1..5), creation, partial update,
    deletion and the two queries. */
module ReviewService {
  import opened Common

  /** A row of the `reviews` table. */
  datatype ReviewRow = ReviewRow(
    id: nat, productId: string, userId: string, rating: int, comment: Option<string>, createdAt: string)

  /** The GraphQL `Review`. */
  datatype Review = Review(
    id: string, productId: string, userId: string, rating: int, comment: Option<string>, createdAt: string)

  datatype CreateReviewInput = CreateReviewInput(
    productId: string, userId: string, rating: int, comment: Option<string>)

  /** A nullable GraphQL input field: left out (`undefined`), given as null, or given. */
  datatype Field<+T> = Absent | Null | Given(value: T)

  datatype UpdateReviewInput = UpdateReviewInput(rating: Field<int>, comment: Field<string>)

  /** One `column = ?` entry of the UPDATE that updateReview assembles. */
  datatype Assignment = SetRating(rating: int) | SetComment(comment: Option<string>)

  datatype ReviewError =
    | RatingDiLuarRentang    // "Rating harus antara 1 sampai 5"
    | UlasanTidakDitemukan   // "Ulasan tidak ditemukan"
    | TidakAdaField          // "Tidak ada field yang akan diperbarui"

  predicate InRange(rating: int)
  {
    1 <= rating <= 5
  }

  /** The table CHECK: every stored rating lies in 1..5. */
  predicate RatingsValid(rows: seq<ReviewRow>)
  {
    forall i | 0 <= i < |rows| :: InRange(rows[i].rating)
  }

  /** mapDbToGraphQL: the id as a string, the other columns renamed, and an empty comment
      read as null. */
  function ToReview(row: ReviewRow): (r: Review)
    ensures r.id == NatToString(row.id)
    ensures r.productId == row.productId && r.userId == row.userId
    ensures r.rating == row.rating && r.createdAt == row.createdAt
    ensures r.comment.Some? <==> row.comment.Some? && row.comment.value != ""
    ensures r.comment.Some? ==> r.comment == row.comment
  {
    Review(NatToString(row.id), row.productId, row.userId, row.rating,
           if row.comment.Some? && row.comment.value != "" then row.comment else None,
           row.createdAt)
  }

  /** updateReview's range check: `rating !== undefined && (rating < 1 || rating > 5)`.
      An explicit null compares as 0, so it is rejected too. */
  predicate RatingRejected(rating: Field<int>)
  {
    match rating
    case Absent => false
    case Null => true
    case Given(v) => !InRange(v)
  }

  /** `SELECT * FROM reviews WHERE id = ?` */
  function FindReview(rows: seq<ReviewRow>, id: int): (r: Option<ReviewRow>)
    ensures r.None? <==> forall row | row in rows :: row.id != id
    ensures r.Some? ==> r.value in rows && r.value.id == id
  {
    if rows == [] then None
    else if rows[0].id == id then Some(rows[0])
    else FindReview(rows[1..], id)
  }

  /** One `column = ?` of the SET clause applied to a row. */
  function Step(row: ReviewRow, a: Assignment): ReviewRow
  {
    match a
    case SetRating(v) => row.(rating := v)
    case SetComment(c) => row.(comment := c)
  }

  /** The row with every assignment applied in order; only rating and comment can change. */
  function Apply(row: ReviewRow, fields: seq<Assignment>): (r: ReviewRow)
    ensures r.id == row.id && r.productId == row.productId
    ensures r.userId == row.userId && r.createdAt == row.createdAt
    decreases |fields|
  {
    if fields == [] then row else Apply(Step(row, fields[0]), fields[1..])
  }

  /** `UPDATE reviews SET ... WHERE id = ?`: the row with that id gets the assignments. */
  function UpdateWhere(rows: seq<ReviewRow>, id: int, fields: seq<Assignment>): (r: seq<ReviewRow>)
    ensures |r| == |rows|
    ensures forall k | 0 <= k < |rows| ::
              r[k] == if rows[k].id == id then Apply(rows[k], fields) else rows[k]
  {
    if rows == [] then []
    else [if rows[0].id == id then Apply(rows[0], fields) else rows[0]] + UpdateWhere(rows[1..], id, fields)
  }

  /** `DELETE FROM reviews WHERE id = ?` */
  function DeleteWhere(rows: seq<ReviewRow>, id: int): (r: seq<ReviewRow>)
    ensures forall row | row in r :: row in rows && row.id != id
    ensures forall row | row in rows && row.id != id :: row in r
  {
    if rows == [] then []
    else if rows[0].id == id then DeleteWhere(rows[1..], id)
    else [rows[0]] + DeleteWhere(rows[1..], id)
  }

  /** `SELECT * FROM reviews WHERE product_id = ?` in insertion order. */
  function OfProduct(rows: seq<ReviewRow>, productId: string): (r: seq<ReviewRow>)
    ensures forall row | row in r :: row in rows && row.productId == productId
    ensures forall row | row in rows && row.productId == productId :: row in r
  {
    if rows == [] then []
    else if rows[0].productId == productId then [rows[0]] + OfProduct(rows[1..], productId)
    else OfProduct(rows[1..], productId)
  }

  /** The GraphQL list of some rows, in their order. */
  function MapToReviews(rows: seq<ReviewRow>): (r: seq<Review>)
    ensures |r| == |rows| && forall k | 0 <= k < |r| :: r[k] == ToReview(rows[k])
  {
    seq(|rows|, k requires 0 <= k < |rows| => ToReview(rows[k]))
  }

  /** The reversed selection of a product lists only and all of that product's reviews. */
  lemma NewestFirstOfProduct(rows: seq<ReviewRow>, productId: string)
    ensures var mine := OfProduct(rows, productId);
            var r := MapToReviews(Reverse(mine));
            && (forall k | 0 <= k < |r| :: r[k].productId == productId)
            && (forall row | row in rows && row.productId == productId :: ToReview(row) in r)
  {
    var mine := OfProduct(rows, productId);
    var r := MapToReviews(Reverse(mine));
    forall k | 0 <= k < |r| ensures r[k].productId == productId {
      var row := mine[|mine| - 1 - k];
      assert row in mine && r[k] == ToReview(row);
    }
    forall row | row in rows && row.productId == productId ensures ToReview(row) in r {
      var i :| 0 <= i < |mine| && mine[i] == row;
      assert r[|mine| - 1 - i] == ToReview(row);
    }
  }

  /** Ids strictly increase along `rows`: insertion order. */
  predicate Increasing(rows: seq<ReviewRow>)
  {
    forall i, j | 0 <= i < j < |rows| :: rows[i].id < rows[j].id
  }

  lemma ConsIncreasing(x: ReviewRow, rows: seq<ReviewRow>)
    requires Increasing(rows)
    requires forall y | y in rows :: x.id < y.id
    ensures Increasing([x] + rows)
  {
    var s := [x] + rows;
    forall i, j | 0 <= i < j < |s| ensures s[i].id < s[j].id {
      assert s[j] == rows[j - 1];
      if i > 0 { assert s[i] == rows[i - 1]; } else { assert s[j] in rows; }
    }
  }

  /** The rows of OfProduct keep the increasing-id order of the table. */
  lemma {:induction false} OfProductIncreasing(rows: seq<ReviewRow>, productId: string)
    requires Increasing(rows)
    ensures Increasing(OfProduct(rows, productId))
  {
    if rows != [] {
      assert Increasing(rows[1..]);
      OfProductIncreasing(rows[1..], productId);
      if rows[0].productId == productId {
        var tail := OfProduct(rows[1..], productId);
        forall y | y in tail ensures rows[0].id < y.id {
          var j :| 0 <= j < |rows[1..]| && rows[1..][j] == y;
          assert rows[j + 1] == y;
        }
        ConsIncreasing(rows[0], tail);
      }
    }
  }

  /** Ids increase in insertion order below the counter; ratings stay in 1..5. */
  ghost predicate TableValid(rows: seq<ReviewRow>, nextId: nat)
  {
    && 1 <= nextId
    && Increasing(rows)
    && (forall i | 0 <= i < |rows| :: rows[i].id < nextId)
    && RatingsValid(rows)
  }

  /** The four reviews inserted into an empty table; all ratings lie in 1..5. */
  function SeedReviews(): (seed: seq<CreateReviewInput>)
    ensures |seed| == 4
    ensures forall k | 0 <= k < |seed| :: InRange(seed[k].rating) && seed[k].comment.Some?
  {
    [CreateReviewInput("1", "user123", 5, Some("Produk sangat bagus, pengiriman cepat!")),
     CreateReviewInput("1", "user456", 4, Some("Kualitas baik, sesuai deskripsi.")),
     CreateReviewInput("2", "user789", 5, Some("Laptop ini sangat powerful untuk kerja sehari-hari.")),
     CreateReviewInput("3", "user101", 3, Some("Mouse wireless ini cukup nyaman digunakan."))]
  }

  /** The review table and its AUTOINCREMENT counter. */
  class ReviewStore {
    var rows: seq<ReviewRow>
    var nextId: nat

    ghost predicate Valid()
      reads this
    {
      TableValid(rows, nextId)
    }

    constructor ()
      ensures Valid() && rows == [] && nextId == 1
    {
      rows, nextId := [], 1;
    }

    /** initDatabase's seed: four reviews, only when the table is empty. */
    method SeedIfEmpty(now: string)
      requires Valid()
      modifies this
      ensures Valid()
      ensures old(rows) != [] ==> rows == old(rows) && nextId == old(nextId)
      ensures old(rows) == [] ==>
                && |rows| == 4 && nextId == old(nextId) + 4
                && forall k | 0 <= k < 4 ::
                     rows[k] == ReviewRow(old(nextId) + k, SeedReviews()[k].productId, SeedReviews()[k].userId,
                                          SeedReviews()[k].rating, SeedReviews()[k].comment, now)
    {
      if rows != [] {
        return;
      }
      var seed := SeedReviews();
      var k := 0;
      while k < |seed|
        invariant 0 <= k <= |seed|
        invariant nextId == old(nextId) + k && |rows| == k
        invariant forall i | 0 <= i < k ::
                    rows[i] == ReviewRow(old(nextId) + i, seed[i].productId, seed[i].userId, seed[i].rating,
                                         seed[i].comment, now)
        invariant Valid()
      {
        rows := rows + [ReviewRow(nextId, seed[k].productId, seed[k].userId, seed[k].rating, seed[k].comment, now)];
        nextId := nextId + 1;
        k := k + 1;
      }
    }

    /** createReview: rejects a rating outside 1..5; otherwise inserts the review, a missing
        or empty comment stored as null, and returns the new row under a fresh id. */
    method CreateReview(input: CreateReviewInput, now: string) returns (r: Result<Review, ReviewError>)
      requires Valid()
      modifies this
      ensures Valid()
      ensures !InRange(input.rating) ==>
                r == Failure(RatingDiLuarRentang) && rows == old(rows) && nextId == old(nextId)
      ensures InRange(input.rating) ==>
                var row := ReviewRow(old(nextId), input.productId, input.userId, input.rating,
                                     if input.comment == Some("") then None else input.comment, now);
                && rows == old(rows) + [row] && nextId == old(nextId) + 1
                && r == Success(ToReview(row))
                && forall old_row | old_row in old(rows) :: old_row.id != row.id
    {
      if input.rating < 1 || input.rating > 5 {
        return Failure(RatingDiLuarRentang);
      }
      var comment := if input.comment == Some("") then None else input.comment;
      var row := ReviewRow(nextId, input.productId, input.userId, input.rating, comment, now);
      rows := rows + [row];
      nextId := nextId + 1;
      r := Success(ToReview(row));
    }

    /** updateReview: "Ulasan tidak ditemukan" for an unknown id; then the rating check,
        made only when a rating is given; then "Tidak ada field" when nothing is given;
        otherwise the given fields of that one row are overwritten. */
    method UpdateReview(id: int, input: UpdateReviewInput) returns (r: Result<Review, ReviewError>)
      requires Valid()
      modifies this`rows
      ensures Valid()
      ensures FindReview(old(rows), id).None? ==> r == Failure(UlasanTidakDitemukan) && rows == old(rows)
      ensures FindReview(old(rows), id).Some? && RatingRejected(input.rating) ==>
                r == Failure(RatingDiLuarRentang) && rows == old(rows)
      ensures FindReview(old(rows), id).Some? && !RatingRejected(input.rating) &&
              input.rating.Absent? && input.comment.Absent? ==>
                r == Failure(TidakAdaField) && rows == old(rows)
      ensures FindReview(old(rows), id).Some? && !RatingRejected(input.rating) &&
              !(input.rating.Absent? && input.comment.Absent?)
              ==> r.Success?
      ensures r.Success? ==>
                && !input.rating.Null?
                && rows == UpdateWhere(old(rows), id, UpdateAssignments(input))
                && r.value == ToReview(Apply(FindReview(old(rows), id).value, UpdateAssignments(input)))
    {
      var existing := FindReview(rows, id);
      if existing.None? {
        return Failure(UlasanTidakDitemukan);
      }
      if RatingRejected(input.rating) {
        return Failure(RatingDiLuarRentang);
      }
      var fields := UpdateAssignments(input);
      if |fields| == 0 {
        return Failure(TidakAdaField);
      }
      UpdateKeepsTableValid(rows, nextId, id, input);
      UpdatedRowFound(rows, id, fields, existing.value);
      rows := UpdateWhere(rows, id, fields);
      var updated := FindReview(rows, id);
      r := Success(ToReview(updated.value));
    }

    /** deleteReview: "Ulasan tidak ditemukan" for an unknown id; otherwise removes exactly
        that row and answers true. */
    method DeleteReview(id: int) returns (r: Result<bool, ReviewError>)
      requires Valid()
      modifies this`rows
      ensures Valid()
      ensures FindReview(old(rows), id).None? ==> r == Failure(UlasanTidakDitemukan) && rows == old(rows)
      ensures FindReview(old(rows), id).Some? ==> r == Success(true) && rows == DeleteWhere(old(rows), id)
    {
      var existing := FindReview(rows, id);
      if existing.None? {
        return Failure(UlasanTidakDitemukan);
      }
      DeleteKeepsOrder(rows, id);
      rows := DeleteWhere(rows, id);
      r := Success(true);
    }

    /** getReviews: the reviews of that product, newest first: the table's rows of that
        product read backwards, whose ids OfProductIncreasing shows increase forwards. */
    function GetReviews(productId: string): (r: seq<Review>)
      reads this
      ensures var mine := OfProduct(rows, productId);
              |r| == |mine| && forall k | 0 <= k < |r| :: r[k] == ToReview(mine[|mine| - 1 - k])
      ensures forall k | 0 <= k < |r| :: r[k].productId == productId
      ensures forall row | row in rows && row.productId == productId :: ToReview(row) in r
    {
      NewestFirstOfProduct(rows, productId);
      MapToReviews(Reverse(OfProduct(rows, productId)))
    }

    /** getReview: null for an unknown id. */
    function GetReview(id: int): (r: Option<Review>)
      reads this
      ensures r.None? <==> forall row | row in rows :: row.id != id
      ensures r.Some? ==> exists row | row in rows :: row.id == id && r.value == ToReview(row)
    {
      match FindReview(rows, id)
      case None => None
      case Some(row) => Some(ToReview(row))
    }
  }

  /** The assignments updateReview collects, rating first, in the order the code pushes
      them; an explicit null comment becomes `comment = NULL`. A null rating never gets
      here: the range check has already rejected it. */
  function UpdateAssignments(input: UpdateReviewInput): (fields: seq<Assignment>)
    requires !input.rating.Null?
    ensures |fields| == 0 <==> input.rating.Absent? && input.comment.Absent?
    ensures forall v :: SetRating(v) in fields <==> input.rating == Given(v)
    ensures forall c :: SetComment(c) in fields <==>
              (input.comment.Given? && c == Some(input.comment.value)) || (input.comment.Null? && c == None)
  {
    RatingPart(input.rating) + CommentPart(input.comment)
  }

  function RatingPart(rating: Field<int>): seq<Assignment>
  {
    match rating
    case Given(v) => [SetRating(v)]
    case _ => []
  }

  function CommentPart(comment: Field<string>): seq<Assignment>
  {
    match comment
    case Absent => []
    case Null => [SetComment(None)]
    case Given(c) => [SetComment(Some(c))]
  }

  /** Applying a concatenation applies its parts one after the other. */
  lemma {:induction false} ApplyAppend(row: ReviewRow, a: seq<Assignment>, b: seq<Assignment>)
    ensures Apply(row, a + b) == Apply(Apply(row, a), b)
    decreases |a|
  {
    if a != [] {
      assert (a + b)[1..] == a[1..] + b;
      ApplyAppend(Step(row, a[0]), a[1..], b);
    } else {
      assert a + b == b;
    }
  }

  /** updateReview changes only the provided fields: a given rating, a given comment;
      the id, product, user and creation time stay. */
  lemma UpdateChangesOnlyGivenFields(row: ReviewRow, input: UpdateReviewInput)
    requires !RatingRejected(input.rating)
    ensures var after := Apply(row, UpdateAssignments(input));
            && after.id == row.id && after.productId == row.productId
            && after.userId == row.userId && after.createdAt == row.createdAt
            && after.rating == (if input.rating.Given? then input.rating.value else row.rating)
            && after.comment == (match input.comment
                                 case Absent => row.comment
                                 case Null => None
                                 case Given(c) => Some(c))
  {
    var ratingPart, commentPart := RatingPart(input.rating), CommentPart(input.comment);
    ApplyAppend(row, ratingPart, commentPart);
    var mid := Apply(row, ratingPart);
    if ratingPart != [] {
      assert ratingPart[1..] == [];
    }
    if commentPart != [] {
      assert commentPart[1..] == [];
    }
  }

  lemma {:induction false} UpdateKeepsRatingsValid(rows: seq<ReviewRow>, id: int, input: UpdateReviewInput)
    requires RatingsValid(rows)
    requires !RatingRejected(input.rating)
    ensures RatingsValid(UpdateWhere(rows, id, UpdateAssignments(input)))
  {
    var r := UpdateWhere(rows, id, UpdateAssignments(input));
    forall k | 0 <= k < |r| ensures InRange(r[k].rating) {
      UpdateChangesOnlyGivenFields(rows[k], input);
    }
  }

  /** The UPDATE leaves every id where it was. */
  lemma UpdateKeepsIds(rows: seq<ReviewRow>, id: int, fields: seq<Assignment>)
    ensures var r := UpdateWhere(rows, id, fields);
            forall k | 0 <= k < |r| :: r[k].id == rows[k].id
    ensures Increasing(rows) ==> Increasing(UpdateWhere(rows, id, fields))
  {
    var r := UpdateWhere(rows, id, fields);
    assert forall k | 0 <= k < |r| :: r[k].id == rows[k].id;
  }

  lemma UpdateKeepsTableValid(rows: seq<ReviewRow>, nextId: nat, id: int, input: UpdateReviewInput)
    requires TableValid(rows, nextId)
    requires !RatingRejected(input.rating)
    ensures TableValid(UpdateWhere(rows, id, UpdateAssignments(input)), nextId)
  {
    UpdateKeepsRatingsValid(rows, id, input);
    UpdateKeepsIds(rows, id, UpdateAssignments(input));
  }

  lemma UpdatedRowFound(rows: seq<ReviewRow>, id: int, fields: seq<Assignment>, row: ReviewRow)
    requires FindReview(rows, id) == Some(row)
    ensures FindReview(UpdateWhere(rows, id, fields), id) == Some(Apply(row, fields))
  {
    if rows != [] && rows[0].id != id {
      UpdatedRowFound(rows[1..], id, fields, row);
      assert UpdateWhere(rows, id, fields)[1..] == UpdateWhere(rows[1..], id, fields);
    }
  }

  lemma {:induction false} DeleteKeepsOrder(rows: seq<ReviewRow>, id: int)
    requires Increasing(rows)
    ensures Increasing(DeleteWhere(rows, id))
  {
    if rows != [] {
      assert Increasing(rows[1..]);
      DeleteKeepsOrder(rows[1..], id);
      if rows[0].id != id {
        var tail := DeleteWhere(rows[1..], id);
        forall y | y in tail ensures rows[0].id < y.id {
          var j :| 0 <= j < |rows[1..]| && rows[1..][j] == y;
          assert rows[j + 1] == y;
        }
        ConsIncreasing(rows[0], tail);
      }
    }
  }

  /** Deleting an existing review removes exactly one row when ids are unique. */
  lemma {:induction false} DeleteRemovesOne(rows: seq<ReviewRow>, id: int)
    requires Increasing(rows)
    requires FindReview(rows, id).Some?
    ensures |DeleteWhere(rows, id)| == |rows| - 1
  {
    assert Increasing(rows[1..]);
    if rows[0].id != id {
      DeleteRemovesOne(rows[1..], id);
    } else {
      forall row | row in rows[1..] ensures row.id != id {
        var j :| 0 <= j < |rows[1..]| && rows[1..][j] == row;
        assert rows[j + 1] == row;
      }
      DeleteAbsent(rows[1..], id);
    }
  }

  lemma {:induction false} DeleteAbsent(rows: seq<ReviewRow>, id: int)
    requires forall row | row in rows :: row.id != id
    ensures DeleteWhere(rows, id) == rows
  {
    if rows != [] {
      DeleteAbsent(rows[1..], id);
    }
  }
}
