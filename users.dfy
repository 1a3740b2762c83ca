/** The participant entity of src/domain/user/entity/user.ts: identity, contact data and the
    rating accumulator that clients and providers share. */
module Users {
  import opened Outcomes
  import opened ValueObjects

  /** The error messages `User` can raise. */
  datatype UserError =
    | Underage       // "User must not be underage"
    | InvalidRating  // "Rating must be between 1 and 5"

  /** Sum of a list of ratings (the `reduce` in `rating`). */
  function Sum(s: seq<real>): real {
    if s == [] then 0.0 else Sum(s[..|s| - 1]) + s[|s| - 1]
  }

  /** Every rating lies in the accepted range [1, 5]. */
  predicate AllInRange(s: seq<real>) {
    forall i :: 0 <= i < |s| ==> 1.0 <= s[i] <= 5.0
  }

  /** Mean of a list of ratings; `None` is the `NaN` that 0/0 produces for an empty list. */
  function Mean(s: seq<real>): (m: Option<real>)
    ensures m.None? <==> s == []
    ensures m.Some? ==> m.value * (|s| as real) == Sum(s)
  {
    if s == [] then None else Some(Sum(s) / (|s| as real))
  }

  lemma {:induction false} SumAppend(s: seq<real>, x: real)
    ensures Sum(s + [x]) == Sum(s) + x
  {
    assert (s + [x])[..|s + [x]| - 1] == s;
  }

  /** A list of ratings in [1, 5] sums to between |s| and 5 |s|. */
  lemma {:induction false} SumBounds(s: seq<real>)
    requires AllInRange(s)
    ensures |s| as real <= Sum(s) <= 5.0 * (|s| as real)
  {
    if s != [] {
      var init := s[..|s| - 1];
      assert AllInRange(init) by {
        forall i | 0 <= i < |init| ensures 1.0 <= init[i] <= 5.0 {
          assert init[i] == s[i];
        }
      }
      SumBounds(init);
    }
  }

  /** When every rating is in [1, 5], so is their mean. */
  lemma MeanInRange(s: seq<real>)
    requires AllInRange(s) && s != []
    ensures Mean(s).Some? && 1.0 <= Mean(s).value <= 5.0
  {
    SumBounds(s);
    QuotientBounds(Sum(s), |s| as real);
  }

  lemma QuotientBounds(total: real, n: real)
    requires n > 0.0 && n <= total <= 5.0 * n
    ensures 1.0 <= total / n <= 5.0
  {
    var q := total / n;
    assert q * n == total;
    if q > 5.0 {
      MulLess(5.0, q, n);
      assert false;
    }
    if q < 1.0 {
      MulLess(q, 1.0, n);
      assert false;
    }
  }

  lemma MulLess(a: real, b: real, c: real)
    requires a < b && c > 0.0
    ensures a * c < b * c
  {
  }

  /** The ratings 5, 1 and 3 average to 3. */
  lemma MeanExample()
    ensures Mean([5.0, 1.0, 3.0]) == Some(3.0)
  {
    assert Sum([5.0, 1.0, 3.0]) == 9.0 by {
      assert [5.0, 1.0, 3.0][..2] == [5.0, 1.0];
      assert [5.0, 1.0][..1] == [5.0];
      assert [5.0][..0] == [];
    }
  }

  /** The range check `rate` applies before pushing a rating. */
  function RateCheck(rating: real): (r: Outcome<UserError>)
    ensures r.Pass? <==> 1.0 <= rating <= 5.0
    ensures r.Fail? ==> r.error == InvalidRating
  {
    if rating < 1.0 || rating > 5.0 then Fail(InvalidRating) else Pass
  }

  /** The age check of `validate`; the age in whole years is an input. */
  function ValidateAge(age: int): (r: Outcome<UserError>)
    ensures r.Fail? <==> age < 18
    ensures r.Fail? ==> r.error == Underage
  {
    if age < 18 then Fail(Underage) else Pass
  }

  class User {
    const id: string
    var name: string
    const document: ValueObject<string, ValueError>
    var email: ValueObject<string, ValueError>
    var contact: ValueObject<string, ValueError>
    const dob: int
    var ratings: seq<real>

    /** Every rating ever received was accepted by `Rate`. */
    ghost predicate Valid()
      reads this
    {
      AllInRange(ratings)
    }

    constructor(id: string, name: string, document: ValueObject<string, ValueError>,
                email: ValueObject<string, ValueError>, contact: ValueObject<string, ValueError>, dob: int)
      ensures Valid()
      ensures this.id == id && this.name == name && this.document == document
      ensures this.email == email && this.contact == contact && this.dob == dob
      ensures ratings == []
    {
      this.id := id;
      this.name := name;
      this.document := document;
      this.email := email;
      this.contact := contact;
      this.dob := dob;
      ratings := [];
    }

    /** The `rating` getter: the mean of the ratings received so far. */
    function Rating(): Option<real>
      reads this
    {
      Mean(ratings)
    }

    method ChangeName(name: string)
      modifies this`name
      ensures this.name == name
    {
      this.name := name;
    }

    method ChangeEmail(email: ValueObject<string, ValueError>)
      modifies this`email
      ensures this.email == email
    {
      this.email := email;
    }

    method ChangeContact(contact: ValueObject<string, ValueError>)
      modifies this`contact
      ensures this.contact == contact
    {
      this.contact := contact;
    }

    /** `rate(user, rating)`: rejects a rating outside [1, 5], otherwise pushes it onto the
        ratings of `target` (not onto this user's own). */
    method Rate(target: User, rating: real) returns (r: Outcome<UserError>)
      requires target.Valid()
      modifies target`ratings
      ensures target.Valid()
      ensures r == RateCheck(rating)
      ensures target.ratings == if r.Pass? then old(target.ratings) + [rating] else old(target.ratings)
      ensures target != this ==> ratings == old(ratings)
    {
      r := RateCheck(rating);
      if r.Fail? {
        return;
      }
      target.ratings := target.ratings + [rating];
    }
  }
}
