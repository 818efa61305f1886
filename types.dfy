/**
 * The records the restaurant site stores and the analytics read. Dates arrive already
 * decoded into calendar fields (what `new Date(date)` yields in the site's time zone).
 */
module Types {
  import opened Wrappers

  /** `Date.prototype.getMonth()`: 0 for January. */
  type Month = m: int | 0 <= m < 12

  /** `Date.prototype.getDay()`: 0 for Sunday. */
  type Weekday = d: int | 0 <= d < 7

  datatype CalendarDate = CalendarDate(year: int, month: Month, weekday: Weekday)

  /** A line of a reservation's food order. */
  datatype ResOrder = ResOrder(
    id: Option<string>,
    foodId: string,
    foodName: string,
    singleAmount: real,
    number: int,
    instructions: Option<string>)

  /**
   * A table reservation. `status` is free text: the analytics also compare it with
   * 'noshow', which the declared status union does not list.
   */
  datatype Reservation = Reservation(
    id: Option<string>,
    userId: string,
    userName: string,
    tableIds: seq<string>,
    orders: seq<ResOrder>,
    date: CalendarDate,
    startTime: string,
    endTime: string,
    pax: int,
    status: Option<string>,
    notes: string)

  datatype DineTable = DineTable(id: string, name: string)

  datatype MenuItem = MenuItem(
    id: string,
    name: string,
    category: string,
    price: real,
    noOfReviews: int,
    averageRating: real)

  datatype User = User(id: string, firstName: string, lastName: string)

  /**
   * A stored feedback as the analytics read it: six ratings, including the overall and
   * value-for-money ratings the declared interface lacks, and the year of `createdAt`
   * when there is one.
   */
  datatype Feedback = Feedback(
    userId: string,
    userName: string,
    overallRating: int,
    foodQualityRating: int,
    serviceRating: int,
    cleanlinessRating: int,
    ambianceRating: int,
    valueForMoneyRating: int,
    createdYear: Option<int>)
}
