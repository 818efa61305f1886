/**
 * The row of star icons the menu and feedback pages draw: star `i` (counting from 1) is
 * filled exactly when `i <= display`, for the rating on display.
 */
module Stars {

  /** The filled flags of a row of `count` stars showing the rating `display`. */
  function StarRow(count: nat, display: int): (r: seq<bool>)
    ensures |r| == count
  {
    seq(count, i => i + 1 <= display)
  }

  /** The number of stars that a rating fills in a row of `count`. */
  function FilledCount(count: nat, display: int): (n: nat)
    ensures n <= count
  {
    if display <= 0 then 0 else if display >= count then count else display
  }

  /** How many flags of a row are set. */
  function CountFilled(r: seq<bool>): nat {
    if r == [] then 0 else CountFilled(r[..|r| - 1]) + (if r[|r| - 1] then 1 else 0)
  }

  /**
   * The filled stars come first: exactly the first `FilledCount(count, display)` stars are
   * filled and the rest are empty, so a rating of 0 or less fills none and a rating of
   * `count` or more fills them all.
   */
  lemma StarRowPrefix(count: nat, display: int)
    ensures var r := StarRow(count, display);
      forall i | 0 <= i < count :: r[i] <==> i < FilledCount(count, display)
  {
  }

  /** Counting the filled flags of the row gives `FilledCount`. */
  lemma {:induction false} StarRowCount(count: nat, display: int)
    ensures CountFilled(StarRow(count, display)) == FilledCount(count, display)
  {
    if count > 0 {
      var r := StarRow(count, display);
      assert r[..count - 1] == StarRow(count - 1, display);
      StarRowCount(count - 1, display);
    }
  }
}
