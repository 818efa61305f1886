/**
 * The older pattern chatbot `SimpleChatbot`. A message is put in the first category whose
 * patterns it contains, and the reply is one of that category's canned texts. Only the menu
 * and reservation categories lead to a page. The random choice of text is an input: a real
 * in [0, 1), standing for `Math.random()`.
 */
module Chatbot {
  import opened Wrappers
  import opened Strings

  datatype Category =
    | Greetings | MenuCategory | Hours | ReservationCategory | Location
    | ContactCategory | Price | Delivery | Special | Default

  /** A reply: the text and, for two categories, the page to open. */
  datatype Reply = Reply(message: string, navigateTo: Option<string>)

  /** The categories in the order `getResponse` tries them; the default comes last and has no patterns. */
  const CategoryOrder: seq<Category> :=
    [Greetings, MenuCategory, Hours, ReservationCategory, Location, ContactCategory, Price, Delivery, Special]

  /** The position of a category in `CategoryOrder`; the default comes after all of them. */
  function Rank(c: Category): (i: nat)
    ensures c != Default ==> i < |CategoryOrder| && CategoryOrder[i] == c
    ensures c == Default ==> i == |CategoryOrder|
  {
    match c
    case Greetings => 0
    case MenuCategory => 1
    case Hours => 2
    case ReservationCategory => 3
    case Location => 4
    case ContactCategory => 5
    case Price => 6
    case Delivery => 7
    case Special => 8
    case Default => 9
  }

  /** The patterns that select a category. */
  function Patterns(c: Category): seq<string> {
    match c
    case Greetings => ["hello", "hi", "hey", "greetings"]
    case MenuCategory => ["menu", "food", "pizza", "what do you have", "what do you serve"]
    case Hours => ["hours", "open", "close", "when", "time"]
    case ReservationCategory => ["reservation", "reserve", "book", "table", "order"]
    case Location => ["location", "where", "address", "find you"]
    case ContactCategory => ["contact", "phone", "email", "call", "reach"]
    case Price => ["price", "cost", "how much", "expensive"]
    case Delivery => ["delivery", "deliver", "takeout", "pickup"]
    case Special => ["birthday", "celebration", "party", "event", "special"]
    case Default => []
  }

  /** The canned texts, two per category and three greetings. */
  datatype Canned =
    | Greeting1 | Greeting2 | Greeting3 | Menu1 | Menu2 | Hours1 | Hours2 | Reservation1 | Reservation2
    | Location1 | Location2 | Contact1 | Contact2 | Price1 | Price2 | Delivery1 | Delivery2
    | Special1 | Special2 | Default1 | Default2

  function Text(k: Canned): string {
    match k
    case Greeting1 => "Hello! Welcome to Shakey's Pizza! How can I help you today?"
    case Greeting2 => "Hi there! I'm here to assist you with your pizza needs!"
    case Greeting3 => "Welcome to Shakey's! What can I do for you?"
    case Menu1 => "We have a variety of delicious pizzas including Pepperoni, Supreme, Margherita, BBQ Chicken, Hawaiian, and Veggie Delight. We also offer appetizers, salads, desserts, and beverages!"
    case Menu2 => "Our menu features classic and specialty pizzas, wings, garlic bread, salads, and more! Would you like to know about a specific item?"
    case Hours1 => "We're open Monday-Thursday 11am-10pm, Friday-Saturday 11am-11pm, and Sunday 12pm-9pm."
    case Hours2 => "Our operating hours are: Mon-Thu 11am-10pm, Fri-Sat 11am-11pm, Sun 12pm-9pm."
    case Reservation1 => "You can make a reservation by going to our Reservation page. Just select your date, time, number of guests, and any food items you'd like to pre-order!"
    case Reservation2 => "To reserve a table, visit our Reservation page where you can choose your preferred date and time. We'll confirm your booking right away!"
    case Location1 => "We're located at 123 Pizza Street, Food City, FC 12345. You can find us near the central plaza!"
    case Location2 => "Our address is 123 Pizza Street, Food City, FC 12345. We're easy to find!"
    case Contact1 => "You can reach us at (555) 123-4567 or email us at info@shakeyspizza.com"
    case Contact2 => "Contact us at (555) 123-4567 or info@shakeyspizza.com. We're happy to help!"
    case Price1 => "Our pizzas range from $11.99 to $15.99 depending on the type. Check out our Menu page for detailed pricing!"
    case Price2 => "Pizza prices start at $11.99. Visit our Menu page to see all items and prices!"
    case Delivery1 => "Currently, we offer dine-in and takeout services. You can make a reservation for dine-in through our website!"
    case Delivery2 => "We focus on providing the best dine-in experience. Make a reservation online to secure your table!"
    case Special1 => "We offer birthday celebration packages! Just mention it in the notes when making your reservation."
    case Special2 => "Planning a special event? Let us know in your reservation notes and we'll make it memorable!"
    case Default1 => "I'm not sure about that, but I can help you with menu information, reservations, hours, or contact details. What would you like to know?"
    case Default2 => "That's a great question! For specific inquiries, please call us at (555) 123-4567 or check our website. How else can I assist you?"
  }

  /** `responses[category]`, as the constructor sets it. */
  function Responses(c: Category): (r: seq<string>)
    ensures |r| >= 2
  {
    match c
    case Greetings => [Text(Greeting1), Text(Greeting2), Text(Greeting3)]
    case MenuCategory => [Text(Menu1), Text(Menu2)]
    case Hours => [Text(Hours1), Text(Hours2)]
    case ReservationCategory => [Text(Reservation1), Text(Reservation2)]
    case Location => [Text(Location1), Text(Location2)]
    case ContactCategory => [Text(Contact1), Text(Contact2)]
    case Price => [Text(Price1), Text(Price2)]
    case Delivery => [Text(Delivery1), Text(Delivery2)]
    case Special => [Text(Special1), Text(Special2)]
    case Default => [Text(Default1), Text(Default2)]
  }

  /** `matchesPattern`: `patterns.some(p => message.includes(p))`, tried from the first pattern on. */
  function MatchesPattern(message: string, patterns: seq<string>): (r: bool)
    ensures r <==> exists p | p in patterns :: Contains(message, p)
  {
    if patterns == [] then false
    else Contains(message, patterns[0]) || MatchesPattern(message, patterns[1..])
  }

  /** `matchesPattern(lowerMessage, patterns)` with the patterns of category `c`. */
  predicate Matches(lower: string, c: Category) {
    MatchesPattern(lower, Patterns(c))
  }

  /**
   * The position in `cats` of the first category whose patterns `lower` contains, or `|cats|`
   * when there is none: the chain of tests `getResponse` makes, one category after another.
   */
  function FirstMatching(lower: string, cats: seq<Category>): (i: nat)
    ensures i <= |cats|
    ensures i < |cats| ==> Matches(lower, cats[i])
    ensures forall j | 0 <= j < i :: !Matches(lower, cats[j])
  {
    if cats == [] then 0
    else if Matches(lower, cats[0]) then 0
    else 1 + FirstMatching(lower, cats[1..])
  }

  /**
   * The category `getResponse` answers for an already lower-cased message: the first of the
   * fixed order whose patterns the message contains. Its patterns occur, and no category tried
   * before it matches. The default, which comes after all of them, is chosen exactly when no
   * category matches.
   */
  function Classify(lower: string): (r: Category)
    ensures r != Default ==> Matches(lower, r)
    ensures forall d | Rank(d) < Rank(r) :: !Matches(lower, d)
  {
    var i := FirstMatching(lower, CategoryOrder);
    if i < |CategoryOrder| then
      RankOfPosition(i);
      CategoryOrder[i]
    else
      Default
  }

  /** `randomResponse`: the text at `Math.floor(random * responses.length)`, for a `random` in [0, 1). */
  function RandomResponse(c: Category, random: real): (r: string)
    requires 0.0 <= random < 1.0
    ensures r in Responses(c)
  {
    var rs := Responses(c);
    rs[FloorIndex(random, |rs|)]
  }

  /** `Math.floor(random * n)`, an index below `n` for a `random` in [0, 1). */
  function FloorIndex(random: real, n: nat): (i: nat)
    requires 0.0 <= random < 1.0 && n > 0
    ensures i < n
  {
    var x := random * n as real;
    assert n as real - x == (1.0 - random) * n as real;
    assert (1.0 - random) * n as real > 0.0;
    assert 0.0 <= x;
    x.Floor
  }

  /** The page a category leads to. */
  function PageOf(c: Category): Option<string> {
    match c
    case MenuCategory => Some("/menu")
    case ReservationCategory => Some("/reservation")
    case _ => None
  }

  /**
   * `getResponse`: the reply is one of the chosen category's texts. It leads to `/menu` exactly
   * for the menu category, to `/reservation` exactly for the reservation category, and nowhere
   * otherwise.
   */
  function GetResponse(message: string, random: real): (r: Reply)
    requires 0.0 <= random < 1.0
    ensures var c := Classify(ToLower(message));
      && r.message in Responses(c)
      && (r.navigateTo == Some("/menu") <==> c == MenuCategory)
      && (r.navigateTo == Some("/reservation") <==> c == ReservationCategory)
      && (r.navigateTo.None? <==> c != MenuCategory && c != ReservationCategory)
  {
    var c := Classify(ToLower(message));
    Reply(RandomResponse(c, random), PageOf(c))
  }

  /** `Rank` undoes the indexing of `CategoryOrder`. */
  lemma RankOfPosition(i: nat)
    requires i < |CategoryOrder|
    ensures Rank(CategoryOrder[i]) == i
  {
  }

  /** A message that contains no pattern at all gets a default text and no page. */
  lemma NoPatternDefault(message: string, random: real)
    requires 0.0 <= random < 1.0
    requires forall c, p | p in Patterns(c) :: !Contains(ToLower(message), p)
    ensures Classify(ToLower(message)) == Default
    ensures GetResponse(message, random).message in Responses(Default)
    ensures GetResponse(message, random).navigateTo == None
  {
    var lower := ToLower(message);
    forall c ensures !Matches(lower, c) {
    }
  }

  /**
   * The hours test comes before the reservation test. So a message with "time" and "table",
   * and no greeting or menu pattern, is answered from the hours texts and opens no page,
   * although it names a table.
   */
  lemma HoursBeforeTable(lower: string)
    requires Contains(lower, "time") && Contains(lower, "table")
    requires !Matches(lower, Greetings) && !Matches(lower, MenuCategory)
    ensures Classify(lower) == Hours && PageOf(Classify(lower)) == None
    ensures Matches(lower, ReservationCategory)
  {
    TimeMatchesHours(lower);
    TableMatchesReservation(lower);
    ClassifyAt(lower, 2);
  }

  lemma TimeMatchesHours(lower: string)
    requires Contains(lower, "time")
    ensures Matches(lower, Hours)
  {
    PatternMatches(lower, Hours, "time");
  }

  lemma TableMatchesReservation(lower: string)
    requires Contains(lower, "table")
    ensures Matches(lower, ReservationCategory)
  {
    PatternMatches(lower, ReservationCategory, "table");
  }

  /** A category matches as soon as one of its patterns occurs. */
  lemma PatternMatches(lower: string, c: Category, p: string)
    requires p in Patterns(c) && Contains(lower, p)
    ensures Matches(lower, c)
  {
  }

  /** The category at position `k` is chosen when it matches and none before it does. */
  lemma ClassifyAt(lower: string, k: nat)
    requires k < |CategoryOrder| && Matches(lower, CategoryOrder[k])
    requires forall j | 0 <= j < k :: !Matches(lower, CategoryOrder[j])
    ensures Classify(lower) == CategoryOrder[k]
  {
  }
}
