// The five-flame day rating widget (frontend/src/components/FireRating.tsx).
module FireRating {
  import opened Common

  /** The flames are the buttons 1 to 5. */
  predicate IsFlame(value: int) {
    1 <= value <= 5
  }

  /** The rating reported when flame `value` is clicked: clicking the current
    * rating clears it, any other flame sets the rating to that flame. */
  function Click(rating: int, value: int): (r: int)
    requires IsFlame(value)
    ensures r == 0 <==> value == rating
    ensures r != 0 ==> r == value
    ensures 0 <= r <= 5
  {
    if value == rating then 0 else value
  }

  /** Flame `value` is drawn lit. */
  predicate Lit(value: int, rating: int) {
    value <= rating
  }

  /** How many of the flames 1..n are lit. */
  function LitCount(rating: int, n: nat): (c: nat)
    ensures c <= n
  {
    if n == 0 then 0 else LitCount(rating, n - 1) + (if Lit(n, rating) then 1 else 0)
  }

  function Clamp(rating: int, n: nat): int {
    if rating < 0 then 0 else if rating > n then n else rating
  }

  /** The lit flames are exactly the first `rating` of them. */
  lemma {:induction false} LitCountIsRating(rating: int, n: nat)
    ensures LitCount(rating, n) == Clamp(rating, n)
  {
    if n > 0 {
      LitCountIsRating(rating, n - 1);
    }
  }

  datatype Mood = OnFire | GreatDay | GoodDay

  /** The caption shown next to the flames, absent for an unrated day. */
  function Caption(rating: int): (r: Option<Mood>)
    ensures r.None? <==> rating <= 0
    ensures r == Some(OnFire) <==> rating == 5
    ensures r == Some(GoodDay) <==> 0 < rating < 3
  {
    if rating <= 0 then None
    else if rating == 5 then Some(OnFire)
    else if rating >= 3 then Some(GreatDay)
    else Some(GoodDay)
  }

  function MoodText(m: Mood): string {
    match m
    case OnFire => "\U{1F525} On fire!"
    case GreatDay => "Great day!"
    case GoodDay => "Good day"
  }

  /** Clicking a flame clears the caption exactly when it was the current
    * rating; a second click on the same flame clears a rating it set and
    * restores a rating it cleared. */
  lemma ClickCaption(rating: int, value: int)
    requires IsFlame(value)
    ensures Caption(Click(rating, value)).None? <==> value == rating
    ensures Click(Click(rating, value), value) == (if value == rating then rating else 0)
  {
  }
}
