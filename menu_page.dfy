/**
 * The menu page: the category buttons and the items a category shows, the average-rating
 * stars of each item, and the dialog in which a logged-in user rates one item from 1 to 5.
 */
module MenuPage {
  import opened Wrappers
  import opened Collections
  import opened Types
  import opened Stars

  // ---------------------------------------------------------------- categories

  const All: string := "All"

  function CategoryOf(item: MenuItem): string { item.category }

  /** `['All', ...new Set(menuItems.map(item => item.category))]`. */
  function Categories(items: seq<MenuItem>): (r: seq<string>)
    ensures |r| >= 1 && r[0] == All
  {
    [All] + Distinct(MapSeq(items, CategoryOf))
  }

  /**
   * The buttons are "All" followed by every category of the items, once each, in the order
   * the categories first appear.
   */
  lemma CategoriesFacts(items: seq<MenuItem>)
    ensures var r := Categories(items);
      && (forall item | item in items :: item.category in r[1..])
      && (forall c | c in r[1..] :: exists item | item in items :: item.category == c)
      && NoRepeatsAfterFirst(r)
  {
    var cs := MapSeq(items, CategoryOf);
    var r := Categories(items);
    assert r[1..] == Distinct(cs);
    forall item | item in items ensures item.category in r[1..] {
      var i :| 0 <= i < |items| && items[i] == item;
      assert cs[i] == item.category;
    }
    forall c | c in r[1..] ensures exists item | item in items :: item.category == c {
      assert c in cs;
      var i :| 0 <= i < |cs| && cs[i] == c;
      assert items[i] in items;
    }
  }

  /** Apart from the leading "All", no button repeats. */
  predicate NoRepeatsAfterFirst(r: seq<string>) {
    forall i, j | 1 <= i < j < |r| :: r[i] != r[j]
  }

  /** `item => item.category === selectedCategory`. */
  function InCategory(category: string): MenuItem -> bool {
    (item: MenuItem) => item.category == category
  }

  /**
   * `filteredItems`: all items under "All", else the items of the selected category. An item is
   * shown exactly when "All" is selected or the item is of the selected category.
   */
  function FilteredItems(items: seq<MenuItem>, selectedCategory: string): (r: seq<MenuItem>)
    ensures |r| <= |items|
    ensures forall item :: item in r <==> item in items && (selectedCategory == All || item.category == selectedCategory)
  {
    if selectedCategory == All then
      items
    else
      FilterMembers(items, InCategory(selectedCategory));
      Filter(items, InCategory(selectedCategory))
  }

  /** Every category button other than "All" shows at least one item. */
  lemma CategoryNeverEmpty(items: seq<MenuItem>, c: string)
    requires c in Categories(items) && c != All
    ensures FilteredItems(items, c) != []
  {
    CategoriesFacts(items);
    var r := Categories(items);
    assert c in r[1..] by {
      var i :| 0 <= i < |r| && r[i] == c;
      assert i != 0;
      assert r[1..][i - 1] == c;
    }
    var item :| item in items && item.category == c;
  }

  /**
   * The categories of the items partition the menu: each item is shown under exactly one
   * category button besides "All", the button of its own category.
   */
  lemma ItemUnderOwnCategory(items: seq<MenuItem>, item: MenuItem, c: string)
    requires item in items && c != All
    ensures item in FilteredItems(items, c) <==> c == item.category
  {
  }

  /**
   * An item whose category is literally "All" has no button of its own: its category
   * duplicates the leading "All", which shows every item.
   */
  lemma AllNamedCategory(items: seq<MenuItem>, item: MenuItem)
    requires item in items && item.category == All
    ensures All in Categories(items)[1..]
    ensures FilteredItems(items, item.category) == items
  {
    CategoriesFacts(items);
  }

  // ---------------------------------------------------------------- average stars

  /** `Math.round`: the nearest integer, halves rounded up. */
  function Round(x: real): (n: int)
    ensures n as real - 0.5 <= x < n as real + 0.5
  {
    (x + 0.5).Floor
  }

  /** `renderStars(averageRating, perfectRating)`: `perfectRating` stars, the rounded average filled. */
  function RenderStars(averageRating: real, perfectRating: int): (r: seq<bool>)
    ensures |r| == if perfectRating > 0 then perfectRating else 0
  {
    StarRow(if perfectRating > 0 then perfectRating else 0, Round(averageRating))
  }

  /**
   * Star `i` of an item's row is filled exactly when the average rating is at least
   * `i - 0.5` (counting stars from 1).
   */
  lemma RenderStarsFilled(averageRating: real, perfectRating: int, i: nat)
    requires i < perfectRating
    ensures RenderStars(averageRating, perfectRating)[i] <==> averageRating >= i as real + 0.5
  {
    var n := Round(averageRating);
    if averageRating >= i as real + 0.5 {
      assert n as real + 0.5 > i as real + 0.5;
    } else {
      assert n as real - 0.5 < i as real + 0.5;
    }
  }

  // ---------------------------------------------------------------- rating dialog

  /** The rating dialog's state: the item being rated (none when closed), the chosen score and the star under the pointer. */
  datatype RatingDialog = RatingDialog(ratingItem: Option<MenuItem>, selectedRating: int, hoverRating: int)

  /** The rating a user sends. */
  datatype UserRating = UserRating(userId: string, userName: string, foodId: string, score: int)

  /** `handleRateClick`: the dialog opens on the item with no score chosen. */
  function HandleRateClick(d: RatingDialog, item: MenuItem): (r: RatingDialog)
    ensures r.ratingItem == Some(item) && r.selectedRating == 0 && r.hoverRating == 0
  {
    RatingDialog(Some(item), 0, 0)
  }

  /** Clicking star `i` chooses it as the score. */
  function ClickStar(d: RatingDialog, i: int): (r: RatingDialog)
    ensures r.ratingItem == d.ratingItem && r.selectedRating == i && r.hoverRating == d.hoverRating
  {
    d.(selectedRating := i)
  }

  /** The pointer entering star `i` or leaving the row. */
  function Hover(d: RatingDialog, i: int): RatingDialog {
    d.(hoverRating := i)
  }

  /** The close button, the cancel button and a click beside the dialog close it. */
  function Close(d: RatingDialog): RatingDialog {
    d.(ratingItem := None)
  }

  /** The outcome of `handleSubmitRating`: the rating sent, if any, and the dialog after it. */
  datatype RatingOutcome = RatingOutcome(request: Option<UserRating>, dialog: RatingDialog)

  /**
   * `handleSubmitRating`: with the dialog open on an item, a score above 0 and a logged-in
   * user, the rating is sent and the dialog closes with its score cleared; otherwise nothing
   * happens. The star under the pointer is not cleared.
   */
  function HandleSubmitRating(user: Option<User>, d: RatingDialog): (r: RatingOutcome)
    ensures r.request.Some? <==> d.ratingItem.Some? && d.selectedRating > 0 && user.Some?
    ensures r.request.None? ==> r.dialog == d
    ensures r.request.Some? ==>
      && r.request.value == UserRating(user.value.id, user.value.firstName + " " + user.value.lastName, d.ratingItem.value.id, d.selectedRating)
      && r.dialog == RatingDialog(None, 0, d.hoverRating)
  {
    if d.ratingItem.Some? && d.selectedRating > 0 then
      if user.None? then RatingOutcome(None, d)
      else
        var dto := UserRating(user.value.id, user.value.firstName + " " + user.value.lastName, d.ratingItem.value.id, d.selectedRating);
        RatingOutcome(Some(dto), d.(ratingItem := None, selectedRating := 0))
    else RatingOutcome(None, d)
  }

  /** A score is sent only once the user has clicked a star: a freshly opened dialog sends nothing. */
  lemma FreshDialogSendsNothing(user: Option<User>, d: RatingDialog, item: MenuItem)
    ensures HandleSubmitRating(user, HandleRateClick(d, item)).request == None
  {
  }

  /**
   * Opening the dialog on an item, clicking star `i` and submitting sends a score of `i` for
   * that item, for any star from 1 to 5, and closes the dialog.
   */
  lemma RateItem(user: User, d: RatingDialog, item: MenuItem, i: int)
    requires 1 <= i <= 5
    ensures var r := HandleSubmitRating(Some(user), ClickStar(HandleRateClick(d, item), i));
      && r.request.Some? && r.request.value.foodId == item.id && r.request.value.score == i
      && r.request.value.userId == user.id
      && r.dialog.ratingItem.None?
  {
  }

  /** `renderRatingStars(selectedRating, hoverRating > 0)`: the star under the pointer wins over the score. */
  function DialogStars(d: RatingDialog): (r: seq<bool>)
    ensures |r| == 5
  {
    StarRow(5, if d.hoverRating > 0 then d.hoverRating else d.selectedRating)
  }

  /**
   * With the pointer off the row, exactly the first `i` of the five stars are filled after
   * clicking star `i`.
   */
  lemma ClickedDialogStars(d: RatingDialog, i: int, k: nat)
    requires 1 <= i <= 5 && k < 5
    ensures DialogStars(Hover(ClickStar(d, i), 0))[k] <==> k < i
  {
    StarRowPrefix(5, i);
  }

  /** While the pointer is over star `j`, exactly the first `j` stars are filled, whatever the score. */
  lemma HoveredDialogStars(d: RatingDialog, j: int, k: nat)
    requires 1 <= j <= 5 && k < 5
    ensures DialogStars(Hover(d, j))[k] <==> k < j
  {
    StarRowPrefix(5, j);
  }

  /** A closed dialog sends nothing. */
  lemma ClosedDialogSendsNothing(user: Option<User>, d: RatingDialog)
    ensures HandleSubmitRating(user, Close(d)).request == None
  {
  }
}
