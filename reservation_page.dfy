/**
 * The reservation page's form logic: the table selection, the food order lines, the
 * reservation record the form submits, the form an existing reservation is edited in, and the
 * leading blanks of the month calendar. Dates stay decoded (`Types.CalendarDate`), so
 * formatting a date and parsing it back are not part of this model.
 */
module ReservationPage {
  import opened Wrappers
  import opened Collections
  import opened Types

  /** A food order line of the form. */
  datatype OrderItem = OrderItem(
    id: string,
    foodId: string,
    foodName: string,
    amount: real,
    quantity: int,
    instructions: string)

  datatype FormData = FormData(
    startTime: string,
    endTime: string,
    numPeople: int,
    diningTables: seq<string>,
    orderItems: seq<OrderItem>,
    notes: string)

  /** The form the page starts with and returns to after a submit. */
  const InitialForm: FormData := FormData("12:00", "13:00", 2, [], [], "")

  /** A string is truthy in a condition unless it is empty. */
  predicate Truthy(s: Option<string>) { s.Some? && s.value != "" }

  // ---------------------------------------------------------------- tables

  /**
   * `toggleDiningTable`: `find` returns the id itself, so an id counts as selected only when it
   * is in the list and is not the empty string, which is falsy. The toggle flips whether the id
   * is selected (the empty id stays selected) and leaves every other id as it was.
   */
  function ToggleDiningTable(tables: seq<string>, tableId: string): (r: seq<string>)
    ensures tableId in r <==> tableId !in tables || tableId == ""
    ensures forall d | d != tableId :: d in r <==> d in tables
  {
    if tableId in tables && tableId != "" then
      FilterMembers(tables, OtherTable(tableId));
      Filter(tables, OtherTable(tableId))
    else
      tables + [tableId]
  }

  /** `d => d !== tableId`. */
  function OtherTable(tableId: string): string -> bool {
    d => d != tableId
  }

  /**
   * A selected id is removed with all its copies and the other ids keep their order; an id
   * that is not selected is appended.
   */
  lemma ToggleFacts(tables: seq<string>, tableId: string)
    requires tableId != ""
    ensures var r := ToggleDiningTable(tables, tableId);
      && (tableId in tables ==> tableId !in r && forall d :: d in r <==> d in tables && d != tableId)
      && (tableId !in tables ==> r == tables + [tableId])
  {
    FilterMembers(tables, OtherTable(tableId));
  }

  /** Removing an id keeps the relative order of the rest: tables listed before and after it stay so. */
  lemma ToggleKeepsOrder(a: seq<string>, b: seq<string>, tableId: string)
    requires tableId != "" && tableId in a + b
    ensures ToggleDiningTable(a + b, tableId) == Filter(a, OtherTable(tableId)) + Filter(b, OtherTable(tableId))
  {
    FilterAppend(a, b, OtherTable(tableId));
  }

  /** Toggling an unselected id twice gives the selection back. */
  lemma ToggleTwice(tables: seq<string>, tableId: string)
    requires tableId != "" && tableId !in tables
    ensures ToggleDiningTable(ToggleDiningTable(tables, tableId), tableId) == tables
  {
    var p := OtherTable(tableId);
    FilterAppend(tables, [tableId], p);
    FilterSingle(tableId, p);
    KeepAll(tables, p);
  }

  /** The empty id is never taken for selected: toggling it always appends another copy. */
  lemma ToggleEmptyId(tables: seq<string>)
    ensures ToggleDiningTable(tables, "") == tables + [""]
  {
  }

  // ---------------------------------------------------------------- order lines

  /** `addOrderItem`, with the new line's id (a fresh UUID in the source) as an input. */
  function AddOrderItem(items: seq<OrderItem>, menu: seq<MenuItem>, newId: string): (r: seq<OrderItem>)
    ensures menu == [] ==> r == items
    ensures menu != [] ==>
      && |r| == |items| + 1 && r[..|items|] == items
      && r[|items|] == OrderItem(newId, menu[0].id, menu[0].name, menu[0].price, 1, "")
  {
    if |menu| == 0 then items
    else items + [OrderItem(newId, menu[0].id, menu[0].name, menu[0].price, 1, "")]
  }

  /** `item => item.id !== id`. */
  function OtherLine(id: string): OrderItem -> bool {
    (item: OrderItem) => item.id != id
  }

  /** `removeOrderItem`: the lines without the given id, and no more lines than before. */
  function RemoveOrderItem(items: seq<OrderItem>, id: string): (r: seq<OrderItem>)
    ensures |r| <= |items|
    ensures forall x :: x in r <==> x in items && x.id != id
  {
    FilterMembers(items, OtherLine(id));
    Filter(items, OtherLine(id))
  }

  /**
   * Exactly the lines with the given id go; the others stay, in their order, so removing an id
   * no line has changes nothing and removing twice is removing once.
   */
  lemma RemoveOrderItemFacts(items: seq<OrderItem>, id: string)
    ensures var r := RemoveOrderItem(items, id);
      && (forall x :: x in r <==> x in items && x.id != id)
      && ((forall x | x in items :: x.id != id) ==> r == items)
      && RemoveOrderItem(r, id) == r
  {
    var p := OtherLine(id);
    FilterMembers(items, p);
    if forall x | x in items :: x.id != id {
      KeepAll(items, p);
    }
    FilterMembers(items, p);
    KeepAll(Filter(items, p), p);
  }

  /** Removing distributes over the lines before and after any point. */
  lemma RemoveKeepsOrder(a: seq<OrderItem>, b: seq<OrderItem>, id: string)
    ensures RemoveOrderItem(a + b, id) == RemoveOrderItem(a, id) + RemoveOrderItem(b, id)
  {
    FilterAppend(a, b, OtherLine(id));
  }

  /** The fields a call of `updateOrderItem` may set; a missing field is left alone. */
  datatype Updates = Updates(
    foodId: Option<string>,
    foodName: Option<string>,
    amount: Option<real>,
    quantity: Option<int>,
    instructions: Option<string>)

  /** `{ ...item, ...updates }`. */
  function Apply(item: OrderItem, u: Updates): OrderItem {
    OrderItem(
      item.id,
      u.foodId.GetOr(item.foodId),
      u.foodName.GetOr(item.foodName),
      u.amount.GetOr(item.amount),
      u.quantity.GetOr(item.quantity),
      u.instructions.GetOr(item.instructions))
  }

  /** `menuItems.find(item => item.id === foodId)`: the first menu item with that id. */
  function FindMenuItem(menu: seq<MenuItem>, foodId: string): (r: Option<MenuItem>)
    ensures r.Some? ==> r.value in menu && r.value.id == foodId
    ensures r.None? ==> forall m | m in menu :: m.id != foodId
  {
    if menu == [] then None
    else if menu[0].id == foodId then Some(menu[0])
    else FindMenuItem(menu[1..], foodId)
  }

  /**
   * `updateOrderItem`. A non-empty `foodId` that names a menu item first writes that item's
   * name and price into `updates` (the caller's object is changed in place, so it is returned);
   * then every line with the given id takes the updates and the other lines stay as they are.
   */
  method UpdateOrderItem(items: seq<OrderItem>, menu: seq<MenuItem>, id: string, updates: Updates)
    returns (updates': Updates, items': seq<OrderItem>)
    ensures Truthy(updates.foodId) && FindMenuItem(menu, updates.foodId.value).Some? ==>
      var m := FindMenuItem(menu, updates.foodId.value).value;
      updates' == updates.(foodName := Some(m.name), amount := Some(m.price))
    ensures !(Truthy(updates.foodId) && FindMenuItem(menu, updates.foodId.value).Some?) ==> updates' == updates
    ensures |items'| == |items|
    ensures forall i | 0 <= i < |items| :: items'[i] == if items[i].id == id then Apply(items[i], updates') else items[i]
  {
    updates' := updates;
    if Truthy(updates'.foodId) {
      var item := FindMenuItem(menu, updates'.foodId.value);
      if item.Some? {
        updates' := updates'.(foodName := Some(item.value.name));
        updates' := updates'.(amount := Some(item.value.price));
      }
    }
    var u := updates';
    items' := MapSeq(items, (item: OrderItem) => if item.id == id then Apply(item, u) else item);
  }

  /** A line that takes a food id from the menu takes that menu item's name and price with it. */
  lemma UpdateFromMenu(item: OrderItem, menu: seq<MenuItem>, updates: Updates, m: MenuItem)
    requires Truthy(updates.foodId) && FindMenuItem(menu, updates.foodId.value) == Some(m)
    ensures var r := Apply(item, updates.(foodName := Some(m.name), amount := Some(m.price)));
      r.id == item.id && r.foodId == m.id && r.foodName == m.name && r.amount == m.price
  {
  }

  // ---------------------------------------------------------------- submit and edit

  /** The request the submit sends: an update when an existing reservation is edited, else a create. */
  datatype Request = CreateRequest(dto: Reservation) | UpdateRequest(dto: Reservation)

  /** One pushed order: the form line's fields under the record's names, without a line id. */
  function ToResOrder(item: OrderItem): ResOrder {
    ResOrder(None, item.foodId, item.foodName, item.amount, item.quantity, Some(item.instructions))
  }

  /** `user.firstName + ' ' + user.lastName`. */
  function FullName(user: User): string { user.firstName + " " + user.lastName }

  /**
   * The record `handleSubmit` sends for a logged-in user: an update of the edited id when
   * there is one, a create without id otherwise; it carries the user, the form's tables,
   * times, party size and notes, one order per form line, and no status.
   */
  function RequestOf(user: User, form: FormData, date: CalendarDate, editingId: Option<string>): (r: Request)
    ensures r.UpdateRequest? <==> Truthy(editingId)
    ensures r.dto.id == if Truthy(editingId) then editingId else None
    ensures r.dto.userId == user.id && r.dto.userName == FullName(user) && r.dto.status == None
    ensures r.dto.tableIds == form.diningTables && r.dto.date == date && r.dto.notes == form.notes
    ensures r.dto.startTime == form.startTime && r.dto.endTime == form.endTime && r.dto.pax == form.numPeople
    ensures |r.dto.orders| == |form.orderItems|
    ensures forall i | 0 <= i < |form.orderItems| :: r.dto.orders[i] == ToResOrder(form.orderItems[i])
  {
    var dto := Reservation(
      None, user.id, FullName(user), form.diningTables, MapSeq(form.orderItems, ToResOrder),
      date, form.startTime, form.endTime, form.numPeople, None, form.notes);
    if Truthy(editingId) then UpdateRequest(dto.(id := editingId)) else CreateRequest(dto)
  }

  /** The part of the page's state that a submit reads and resets. */
  datatype PageState = PageState(form: FormData, selectedDate: CalendarDate, editingId: Option<string>, showForm: bool)

  /**
   * `handleSubmit`: nothing happens without a user. Otherwise the two `forEach` loops push the
   * tables and the order lines into the record, which is sent as an update or a create, and
   * the form is closed and reset.
   */
  method HandleSubmit(user: Option<User>, s: PageState) returns (request: Option<Request>, s': PageState)
    ensures user.None? ==> request.None? && s' == s
    ensures user.Some? ==> request == Some(RequestOf(user.value, s.form, s.selectedDate, s.editingId))
    ensures user.Some? ==> s' == s.(form := InitialForm, editingId := None, showForm := false)
  {
    if user.None? {
      return None, s;
    }
    var u := user.value;
    var form := s.form;
    var tableIds: seq<string> := [];
    for i := 0 to |form.diningTables|
      invariant tableIds == form.diningTables[..i]
    {
      tableIds := tableIds + [form.diningTables[i]];
    }
    var orders: seq<ResOrder> := [];
    for i := 0 to |form.orderItems|
      invariant |orders| == i
      invariant forall k | 0 <= k < i :: orders[k] == ToResOrder(form.orderItems[k])
    {
      var item := form.orderItems[i];
      orders := orders + [ResOrder(None, item.foodId, item.foodName, item.amount, item.quantity, Some(item.instructions))];
    }
    assert tableIds == form.diningTables;
    assert orders == MapSeq(form.orderItems, ToResOrder);
    var dto := Reservation(
      None, u.id, u.firstName + " " + u.lastName, tableIds, orders,
      s.selectedDate, form.startTime, form.endTime, form.numPeople, None, form.notes);
    if Truthy(s.editingId) {
      dto := dto.(id := s.editingId);
      request := Some(UpdateRequest(dto));
    } else {
      request := Some(CreateRequest(dto));
    }
    s' := s.(form := InitialForm, editingId := None, showForm := false);
  }

  /** `order.id ? order.id : ''` and the other fields of an order, back into a form line. */
  function ToOrderItem(o: ResOrder): OrderItem {
    OrderItem(
      if Truthy(o.id) then o.id.value else "",
      o.foodId, o.foodName, o.singleAmount, o.number, o.instructions.GetOr(""))
  }

  /** `handleEdit`: the reservation's fields copied into the form, which opens. */
  function HandleEdit(s: PageState, r: Reservation): (s': PageState)
    ensures s'.showForm && s'.selectedDate == r.date
    ensures s'.editingId == (if Truthy(r.id) then r.id else None)
    ensures s'.form.diningTables == r.tableIds && |s'.form.orderItems| == |r.orders|
    ensures s'.form.startTime == r.startTime && s'.form.endTime == r.endTime
    ensures s'.form.numPeople == r.pax && s'.form.notes == r.notes
    ensures forall i | 0 <= i < |r.orders| ::
      && s'.form.orderItems[i].id == (if Truthy(r.orders[i].id) then r.orders[i].id.value else "")
      && s'.form.orderItems[i].foodId == r.orders[i].foodId
      && s'.form.orderItems[i].foodName == r.orders[i].foodName
      && s'.form.orderItems[i].amount == r.orders[i].singleAmount
      && s'.form.orderItems[i].quantity == r.orders[i].number
      && s'.form.orderItems[i].instructions == r.orders[i].instructions.GetOr("")
  {
    PageState(
      FormData(r.startTime, r.endTime, r.pax, r.tableIds, MapSeq(r.orders, ToOrderItem), r.notes),
      r.date,
      if Truthy(r.id) then r.id else None,
      true)
  }

  /**
   * Editing a stored reservation and submitting it unchanged sends an update of the same
   * reservation: same id, times, party size, tables, date and notes, and the same orders
   * except that their line ids are dropped and missing instructions become ''.
   */
  lemma EditSubmitRoundTrip(user: User, s: PageState, r: Reservation)
    requires Truthy(r.id)
    ensures var e := HandleEdit(s, r);
      var req := RequestOf(user, e.form, e.selectedDate, e.editingId);
      && req.UpdateRequest?
      && req.dto == r.(userId := user.id, userName := FullName(user), status := None,
           orders := MapSeq(r.orders, (o: ResOrder) => o.(id := None, instructions := Some(o.instructions.GetOr("")))))
  {
    var e := HandleEdit(s, r);
    var back := MapSeq(e.form.orderItems, ToResOrder);
    var expected := MapSeq(r.orders, (o: ResOrder) => o.(id := None, instructions := Some(o.instructions.GetOr(""))));
    assert back == expected;
  }

  /**
   * Orders stored without an id open as lines with the id '', so removing the line '' in the
   * edited form removes every such line at once and keeps exactly the lines that had an id.
   */
  lemma EditRemoveEmptyId(s: PageState, r: Reservation)
    ensures var rest := RemoveOrderItem(HandleEdit(s, r).form.orderItems, "");
      && (forall x | x in rest :: x.id != "")
      && (forall i | 0 <= i < |r.orders| :: ToOrderItem(r.orders[i]) in rest <==> Truthy(r.orders[i].id))
  {
    var items := HandleEdit(s, r).form.orderItems;
    forall i | 0 <= i < |r.orders| ensures ToOrderItem(r.orders[i]) in items {
      assert items[i] == ToOrderItem(r.orders[i]);
    }
  }

  /** A reservation without an id (or with an empty one) comes back as a create. */
  lemma EditWithoutIdCreates(user: User, s: PageState, r: Reservation)
    requires !Truthy(r.id)
    ensures var e := HandleEdit(s, r);
      RequestOf(user, e.form, e.selectedDate, e.editingId).CreateRequest?
  {
  }

  // ---------------------------------------------------------------- calendar

  /**
   * `getCalendarDays`, with the weekday of the month's first day (0 for Sunday) and the
   * number of days in the month as inputs: that many blanks, then the days 1 to `days`.
   */
  function CalendarDays(firstWeekday: Weekday, days: nat): (r: seq<Option<nat>>)
    ensures |r| == firstWeekday + days
  {
    seq(firstWeekday, _ => None) + seq(days, d => Some(d + 1))
  }

  /**
   * The blanks come first and every day of the month follows in order; so day `d` sits in
   * column `(firstWeekday + d - 1) % 7`, which is its weekday.
   */
  lemma CalendarLayout(firstWeekday: Weekday, days: nat)
    ensures var r := CalendarDays(firstWeekday, days);
      && (forall i | 0 <= i < firstWeekday :: r[i] == None)
      && (forall d | 1 <= d <= days :: r[firstWeekday + d - 1] == Some(d))
      && (forall i | 0 <= i < |r| && r[i].Some? :: i % 7 == (firstWeekday + r[i].value - 1) % 7)
  {
  }
}
