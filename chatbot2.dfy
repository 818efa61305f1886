/**
 * The navigation-aware chatbot of the site. It has four parts:
 *   - a keyword scorer that picks the page a message asks for;
 *   - canned replies for when the Botpress service gives no answer;
 *   - the per-user conversation store of `BotpressChatbot`;
 *   - `SmartChatbotManager`, which chooses between the remote service and its own local replies.
 * The Botpress service is not modelled: what it does with one message is an input
 * (`RemoteOutcome`).
 */
module Chatbot2 {
  import opened Wrappers
  import opened Strings
  import opened Collections

  // ---------------------------------------------------------------- records

  datatype NavigationIntent = NavigationIntent(intent: string, path: string, keywords: seq<string>, priority: int)

  datatype Role = UserRole | AssistantRole

  datatype ChatMessage = ChatMessage(role: Role, content: string)

  datatype ConversationContext = ConversationContext(userId: string, conversationId: Option<string>, history: seq<ChatMessage>)

  /** A reply. `navigateTo` and `confidence` are optional fields. */
  datatype ChatbotResponse = ChatbotResponse(
    message: string,
    navigateTo: Option<string>,
    confidence: Option<real>,
    suggestions: seq<string>)

  // ---------------------------------------------------------------- navigation map

  const MenuIntent := NavigationIntent("view_menu", "/menu",
    ["menu", "food", "pizza", "pizzas", "items", "dishes", "what do you have", "what do you serve",
     "options", "choices", "pepperoni", "supreme", "margherita", "hawaiian", "bbq", "veggie",
     "appetizers", "desserts", "beverages", "drinks"], 10)
  const ReservationIntent := NavigationIntent("make_reservation", "/reservation",
    ["reservation", "reserve", "book", "booking", "table", "seat", "order", "pre-order", "schedule",
     "appointment", "dine in", "dine-in"], 10)
  const HomeIntent := NavigationIntent("view_home", "/",
    ["home", "main page", "homepage", "start", "beginning", "back to main"], 5)
  const AboutIntent := NavigationIntent("view_about", "/about",
    ["about", "about us", "who are you", "company", "story", "history", "information"], 7)
  const ContactIntent := NavigationIntent("view_contact", "/contact",
    ["contact", "reach", "get in touch", "contact us", "phone", "email", "address", "location",
     "where are you", "find you"], 8)
  const GalleryIntent := NavigationIntent("view_gallery", "/gallery",
    ["gallery", "photos", "pictures", "images", "see", "look", "view pictures"], 6)

  /** `initializeNavigationMap`: six pages, each with its trigger keywords and a positive priority. */
  function NavigationMap(): (m: seq<NavigationIntent>)
    ensures |m| == 6
    ensures forall nav | nav in m :: nav.priority > 0
  {
    [MenuIntent, ReservationIntent, HomeIntent, AboutIntent, ContactIntent, GalleryIntent]
  }

  // ---------------------------------------------------------------- scoring

  /** What one keyword adds to its intent's score: the priority when the message contains it, 2 more when the message starts or ends with it. */
  function KeywordScore(lower: string, keyword: string, priority: int): int {
    if Contains(lower, keyword) then
      priority + (if StartsWith(lower, keyword) || EndsWith(lower, keyword) then 2 else 0)
    else
      0
  }

  /** The inner loop's `score` after the given keywords. */
  function IntentScore(lower: string, keywords: seq<string>, priority: int): int {
    if keywords == [] then 0
    else IntentScore(lower, keywords[..|keywords| - 1], priority) + KeywordScore(lower, keywords[|keywords| - 1], priority)
  }

  function Score(lower: string, nav: NavigationIntent): int {
    IntentScore(lower, nav.keywords, nav.priority)
  }

  /** The outer loop's state: `highestScore` and `bestMatch`. */
  datatype Best = Best(score: int, intent: Option<NavigationIntent>)

  /** The outer loop's state after the given intents: an intent replaces the best match only with a strictly higher score. */
  function Scan(lower: string, navs: seq<NavigationIntent>): Best {
    if navs == [] then Best(0, None)
    else
      var b := Scan(lower, navs[..|navs| - 1]);
      var s := Score(lower, navs[|navs| - 1]);
      if s > b.score then Best(s, Some(navs[|navs| - 1])) else b
  }

  /** The intent `analyzeNavigationIntent` returns for an already lower-cased message. */
  function NavigationIntentOf(navs: seq<NavigationIntent>, lower: string): Option<NavigationIntent> {
    var b := Scan(lower, navs);
    if b.score > 0 then b.intent else None
  }

  /** Intent `i` has the highest score, and every intent before it scores strictly less. */
  predicate FirstMax(lower: string, navs: seq<NavigationIntent>, i: int) {
    && 0 <= i < |navs|
    && (forall j | 0 <= j < |navs| :: Score(lower, navs[j]) <= Score(lower, navs[i]))
    && (forall j | 0 <= j < i :: Score(lower, navs[j]) < Score(lower, navs[i]))
  }

  /** With a positive priority, a score is never negative. It is positive exactly when some keyword occurs in the message. */
  lemma {:induction false} IntentScoreSign(lower: string, keywords: seq<string>, priority: int)
    requires priority > 0
    ensures IntentScore(lower, keywords, priority) >= 0
    ensures IntentScore(lower, keywords, priority) > 0 <==> exists k | k in keywords :: Contains(lower, k)
  {
    if keywords != [] {
      var init, last := keywords[..|keywords| - 1], keywords[|keywords| - 1];
      IntentScoreSign(lower, init, priority);
      if exists k | k in keywords :: Contains(lower, k) {
        var k :| k in keywords && Contains(lower, k);
        InInitOrLast(keywords, k);
      }
      if exists k | k in init :: Contains(lower, k) {
        var k :| k in init && Contains(lower, k);
        assert k in keywords;
      }
    }
  }

  /**
   * The scan keeps the highest score seen, starting from 0. It holds an intent exactly when
   * that score is positive, and the intent it holds is the first one reaching that score.
   */
  lemma {:induction false} ScanFacts(lower: string, navs: seq<NavigationIntent>)
    ensures Scan(lower, navs).score >= 0
    ensures forall j | 0 <= j < |navs| :: Score(lower, navs[j]) <= Scan(lower, navs).score
    ensures Scan(lower, navs).intent.Some? <==> Scan(lower, navs).score > 0
    ensures Scan(lower, navs).intent.Some? ==>
      exists i :: FirstMax(lower, navs, i) && navs[i] == Scan(lower, navs).intent.value
                  && Score(lower, navs[i]) == Scan(lower, navs).score
  {
    if navs != [] {
      var n := |navs| - 1;
      var init := navs[..n];
      ScanFacts(lower, init);
      var b := Scan(lower, init);
      var s := Score(lower, navs[n]);
      assert forall j | 0 <= j < n :: navs[j] == init[j];
      if s > b.score {
        assert FirstMax(lower, navs, n);
      } else if b.intent.Some? {
        var i :| FirstMax(lower, init, i) && init[i] == b.intent.value && Score(lower, init[i]) == b.score;
        assert FirstMax(lower, navs, i);
      }
    }
  }

  /** The chosen intent has the highest score, which is positive, and no earlier intent ties it. There is no intent exactly when no intent scores above 0. */
  lemma NavigationChoice(navs: seq<NavigationIntent>, lower: string)
    ensures NavigationIntentOf(navs, lower).Some? ==>
      exists i :: FirstMax(lower, navs, i) && navs[i] == NavigationIntentOf(navs, lower).value
                  && Score(lower, navs[i]) > 0
    ensures NavigationIntentOf(navs, lower).None? <==> forall j | 0 <= j < |navs| :: Score(lower, navs[j]) <= 0
  {
    ScanFacts(lower, navs);
  }

  /** With positive priorities, there is no intent exactly when no keyword of any intent occurs in the message. */
  lemma {:induction false} NavigationNone(navs: seq<NavigationIntent>, lower: string)
    requires forall nav | nav in navs :: nav.priority > 0
    ensures NavigationIntentOf(navs, lower).None? <==>
      forall j, k | 0 <= j < |navs| && k in navs[j].keywords :: !Contains(lower, k)
  {
    NavigationChoice(navs, lower);
    forall j | 0 <= j < |navs|
      ensures Score(lower, navs[j]) >= 0
      ensures Score(lower, navs[j]) > 0 <==> exists k | k in navs[j].keywords :: Contains(lower, k)
    {
      assert navs[j] in navs;
      IntentScoreSign(lower, navs[j].keywords, navs[j].priority);
    }
  }

  /** "show me the menu" names only the menu page: the word "menu" ends the message and no other page's keyword occurs in it. */
  lemma ShowMeTheMenu()
    ensures NavigationIntentOf(NavigationMap(), ToLower("show me the menu")) == Some(MenuIntent)
    ensures MenuIntent.intent == "view_menu" && MenuIntent.path == "/menu"
  {
    var s := "show me the menu";
    ShowMenuText(s);
    ShowMenuLetters(s);
    ShowMenuPairs(s);
    MenuOnly(s);
  }

  lemma ShowMenuText(s: string)
    requires s == "show me the menu"
    ensures ToLower(s) == s && Contains(s, "menu")
  {
    assert MatchAt(s, "menu", 12);
  }

  lemma ShowMenuLetters(s: string)
    requires s == "show me the menu"
    ensures 'a' !in s && 'b' !in s && 'c' !in s && 'd' !in s && 'f' !in s && 'g' !in s
    ensures 'i' !in s && 'l' !in s && 'p' !in s && 'r' !in s && 'v' !in s
  {
    ShowMenuLetters1(s);
    ShowMenuLetters2(s);
    ShowMenuLetters3(s);
  }

  lemma ShowMenuLetters1(s: string)
    requires s == "show me the menu"
    ensures 'a' !in s && 'b' !in s && 'c' !in s && 'd' !in s
  {
  }

  lemma ShowMenuLetters2(s: string)
    requires s == "show me the menu"
    ensures 'f' !in s && 'g' !in s && 'i' !in s && 'l' !in s
  {
  }

  lemma ShowMenuLetters3(s: string)
    requires s == "show me the menu"
    ensures 'p' !in s && 'r' !in s && 'v' !in s
  {
  }

  lemma ShowMenuPairs(s: string)
    requires s == "show me the menu"
    ensures !Pair(s, 'o', 'm') && !Pair(s, 'e', 'e')
  {
  }

  /** The characters `x` and `y` stand side by side somewhere in `s`. */
  predicate Pair(s: string, x: char, y: char) {
    exists i | 0 <= i < |s| - 1 :: s[i] == x && s[i + 1] == y
  }

  /**
   * A message containing "menu" but none of the letters a, b, c, d, f, g, i, l, p, r, v and
   * neither "om" nor "ee" names the menu page and no other.
   */
  lemma MenuOnly(s: string)
    requires Contains(s, "menu")
    requires 'a' !in s && 'b' !in s && 'c' !in s && 'd' !in s && 'f' !in s && 'g' !in s
    requires 'i' !in s && 'l' !in s && 'p' !in s && 'r' !in s && 'v' !in s
    requires !Pair(s, 'o', 'm') && !Pair(s, 'e', 'e')
    ensures NavigationIntentOf(NavigationMap(), s) == Some(MenuIntent)
  {
    var m := NavigationMap();
    assert "menu" in MenuIntent.keywords;
    IntentScoreSign(s, MenuIntent.keywords, MenuIntent.priority);
    QuietReservation(s);
    QuietHome(s);
    QuietAbout(s);
    QuietContact(s);
    QuietGallery(s);
    assert m[1..] == [ReservationIntent, HomeIntent, AboutIntent, ContactIntent, GalleryIntent];
    SoleScorer(m, s);
  }

  /** When only the first intent scores above 0, it is the one chosen. */
  lemma SoleScorer(navs: seq<NavigationIntent>, lower: string)
    requires |navs| > 0 && Score(lower, navs[0]) > 0
    requires forall nav | nav in navs[1..] :: Score(lower, nav) <= 0
    ensures NavigationIntentOf(navs, lower) == Some(navs[0])
  {
    NavigationChoice(navs, lower);
    var i :| FirstMax(lower, navs, i) && navs[i] == NavigationIntentOf(navs, lower).value && Score(lower, navs[i]) > 0;
  }

  lemma QuietReservation(s: string)
    requires 'a' !in s && 'b' !in s && 'c' !in s && 'd' !in s && 'f' !in s && 'g' !in s
    requires 'i' !in s && 'l' !in s && 'p' !in s && 'r' !in s && 'v' !in s
    requires !Pair(s, 'o', 'm') && !Pair(s, 'e', 'e')
    ensures Score(s, ReservationIntent) == 0
  {
    RefuteByChar(s, "reservation", 0);
    RefuteByChar(s, "reserve", 0);
    RefuteByChar(s, "book", 0);
    RefuteByChar(s, "booking", 0);
    RefuteByChar(s, "table", 1);
    RefuteByChar(s, "seat", 2);
    RefuteByChar(s, "order", 1);
    RefuteByChar(s, "pre-order", 0);
    RefuteByChar(s, "schedule", 1);
    RefuteByChar(s, "appointment", 0);
    RefuteByChar(s, "dine in", 0);
    RefuteByChar(s, "dine-in", 0);
    IntentScoreSign(s, ReservationIntent.keywords, ReservationIntent.priority);
  }

  lemma QuietHome(s: string)
    requires 'a' !in s && 'b' !in s && 'c' !in s && 'd' !in s && 'f' !in s && 'g' !in s
    requires 'i' !in s && 'l' !in s && 'p' !in s && 'r' !in s && 'v' !in s
    requires !Pair(s, 'o', 'm') && !Pair(s, 'e', 'e')
    ensures Score(s, HomeIntent) == 0
  {
    RefuteByPair(s, "home", 1);
    RefuteByChar(s, "main page", 1);
    RefuteByChar(s, "homepage", 4);
    RefuteByChar(s, "start", 2);
    RefuteByChar(s, "beginning", 0);
    RefuteByChar(s, "back to main", 0);
    IntentScoreSign(s, HomeIntent.keywords, HomeIntent.priority);
  }

  lemma QuietAbout(s: string)
    requires 'a' !in s && 'b' !in s && 'c' !in s && 'd' !in s && 'f' !in s && 'g' !in s
    requires 'i' !in s && 'l' !in s && 'p' !in s && 'r' !in s && 'v' !in s
    requires !Pair(s, 'o', 'm') && !Pair(s, 'e', 'e')
    ensures Score(s, AboutIntent) == 0
  {
    RefuteByChar(s, "about", 0);
    RefuteByChar(s, "about us", 0);
    RefuteByChar(s, "who are you", 4);
    RefuteByChar(s, "company", 0);
    RefuteByChar(s, "story", 3);
    RefuteByChar(s, "history", 1);
    RefuteByChar(s, "information", 0);
    IntentScoreSign(s, AboutIntent.keywords, AboutIntent.priority);
  }

  lemma QuietContact(s: string)
    requires 'a' !in s && 'b' !in s && 'c' !in s && 'd' !in s && 'f' !in s && 'g' !in s
    requires 'i' !in s && 'l' !in s && 'p' !in s && 'r' !in s && 'v' !in s
    requires !Pair(s, 'o', 'm') && !Pair(s, 'e', 'e')
    ensures Score(s, ContactIntent) == 0
  {
    RefuteByChar(s, "contact", 0);
    RefuteByChar(s, "reach", 0);
    RefuteByChar(s, "get in touch", 0);
    RefuteByChar(s, "contact us", 0);
    RefuteByChar(s, "phone", 0);
    RefuteByChar(s, "email", 2);
    RefuteByChar(s, "address", 0);
    RefuteByChar(s, "location", 0);
    RefuteByChar(s, "where are you", 3);
    RefuteByChar(s, "find you", 0);
    IntentScoreSign(s, ContactIntent.keywords, ContactIntent.priority);
  }

  lemma QuietGallery(s: string)
    requires 'a' !in s && 'b' !in s && 'c' !in s && 'd' !in s && 'f' !in s && 'g' !in s
    requires 'i' !in s && 'l' !in s && 'p' !in s && 'r' !in s && 'v' !in s
    requires !Pair(s, 'o', 'm') && !Pair(s, 'e', 'e')
    ensures Score(s, GalleryIntent) == 0
  {
    RefuteByChar(s, "gallery", 0);
    RefuteByChar(s, "photos", 0);
    RefuteByChar(s, "pictures", 0);
    RefuteByChar(s, "images", 0);
    RefuteByPair(s, "see", 1);
    RefuteByChar(s, "look", 0);
    RefuteByChar(s, "view pictures", 0);
    IntentScoreSign(s, GalleryIntent.keywords, GalleryIntent.priority);
  }

  // ---------------------------------------------------------------- keyword classes

  predicate Greets(lower: string) { Contains(lower, "hello") || Contains(lower, "hi") || Contains(lower, "hey") }

  predicate AsksMenu(lower: string) { Contains(lower, "menu") || Contains(lower, "food") || Contains(lower, "pizza") }

  /** The booking test of the suggestions. */
  predicate AsksBooking(lower: string) { Contains(lower, "reservation") || Contains(lower, "book") }

  /** The booking test of the replies, which also accepts "table". */
  predicate AsksReservation(lower: string) { AsksBooking(lower) || Contains(lower, "table") }

  predicate AsksHours(lower: string) { Contains(lower, "hours") || Contains(lower, "open") || Contains(lower, "close") }

  /** The location test of the suggestions. */
  predicate AsksWhere(lower: string) { Contains(lower, "location") || Contains(lower, "where") }

  /** The location test of the replies, which also accepts "address". */
  predicate AsksLocation(lower: string) { AsksWhere(lower) || Contains(lower, "address") }

  predicate AsksContact(lower: string) { Contains(lower, "contact") || Contains(lower, "phone") || Contains(lower, "email") }

  predicate AsksPrice(lower: string) { Contains(lower, "price") || Contains(lower, "cost") }

  predicate AsksDelivery(lower: string) { Contains(lower, "delivery") || Contains(lower, "takeout") || Contains(lower, "pickup") }

  predicate AsksEvent(lower: string) {
    Contains(lower, "birthday") || Contains(lower, "party") || Contains(lower, "celebration") || Contains(lower, "event")
  }

  // ---------------------------------------------------------------- suggestions

  const MenuSuggestions: seq<string> := ["Show me the menu", "What pizzas do you have?", "Make a reservation"]
  const BookingSuggestions: seq<string> := ["Book a table now", "What are your hours?", "View menu"]
  const PriceSuggestions: seq<string> := ["Show me the menu", "Make a reservation", "Any special offers?"]
  const WhereSuggestions: seq<string> := ["Get directions", "Contact information", "Make a reservation"]
  const DefaultSuggestions: seq<string> := ["View menu", "Make a reservation", "Contact us"]

  /** `generateContextualSuggestions`: the first matching keyword class picks the suggestions, cut to three. */
  function GenerateContextualSuggestions(message: string): (r: seq<string>)
    ensures |r| == 3
  {
    var lower := ToLower(message);
    var suggestions :=
      if AsksMenu(lower) then MenuSuggestions
      else if AsksBooking(lower) then BookingSuggestions
      else if AsksPrice(lower) then PriceSuggestions
      else if AsksWhere(lower) then WhereSuggestions
      else DefaultSuggestions;
    suggestions[..3]
  }

  /** Each set of suggestions comes back exactly when its class is the first that matches, in the order menu, booking, price, location. */
  lemma SuggestionsFirstMatch(message: string)
    ensures var lower, r := ToLower(message), GenerateContextualSuggestions(message);
      && (r == MenuSuggestions <==> AsksMenu(lower))
      && (r == BookingSuggestions <==> !AsksMenu(lower) && AsksBooking(lower))
      && (r == PriceSuggestions <==> !AsksMenu(lower) && !AsksBooking(lower) && AsksPrice(lower))
      && (r == WhereSuggestions <==> !AsksMenu(lower) && !AsksBooking(lower) && !AsksPrice(lower) && AsksWhere(lower))
      && (r == DefaultSuggestions <==> !AsksMenu(lower) && !AsksBooking(lower) && !AsksPrice(lower) && !AsksWhere(lower))
  {
    assert MenuSuggestions[1] != BookingSuggestions[1] && MenuSuggestions[1] != PriceSuggestions[1];
    assert MenuSuggestions[0] != WhereSuggestions[0] && MenuSuggestions[0] != DefaultSuggestions[0];
    assert BookingSuggestions[0] != PriceSuggestions[0] && BookingSuggestions[0] != WhereSuggestions[0];
    assert BookingSuggestions[0] != DefaultSuggestions[0] && PriceSuggestions[0] != WhereSuggestions[0];
    assert PriceSuggestions[0] != DefaultSuggestions[0] && WhereSuggestions[0] != DefaultSuggestions[0];
  }

  // ---------------------------------------------------------------- Botpress fallback replies

  /** The subjects the canned replies answer. */
  datatype Topic =
    | Greeting | MenuTopic | ReservationTopic | HoursTopic | LocationTopic
    | ContactTopic | PriceTopic | DeliveryTopic | EventTopic | OtherTopic

  /**
   * The subject `BotpressChatbot.getFallbackResponse` answers: the first keyword class the
   * message matches. The greeting wins whenever "hello", "hi" or "hey" occurs. A message with
   * none of the keywords of any class gets the general reply.
   */
  function FallbackTopic(lower: string): (r: Topic)
    ensures r == Greeting <==> Greets(lower)
    ensures r == MenuTopic <==> !Greets(lower) && AsksMenu(lower)
    ensures r == OtherTopic <==>
      !Greets(lower) && !AsksMenu(lower) && !AsksReservation(lower) && !AsksHours(lower)
      && !AsksLocation(lower) && !AsksContact(lower) && !AsksPrice(lower) && !Contains(lower, "how much")
      && !AsksDelivery(lower) && !AsksEvent(lower)
  {
    if Greets(lower) then Greeting
    else if AsksMenu(lower) then MenuTopic
    else if AsksReservation(lower) then ReservationTopic
    else if AsksHours(lower) then HoursTopic
    else if AsksLocation(lower) then LocationTopic
    else if AsksContact(lower) then ContactTopic
    else if AsksPrice(lower) || Contains(lower, "how much") then PriceTopic
    else if AsksDelivery(lower) then DeliveryTopic
    else if AsksEvent(lower) then EventTopic
    else OtherTopic
  }

  function FallbackText(t: Topic): string {
    match t
    case Greeting => "Hello! Welcome to Shakey's Pizza! I'm your AI assistant. I can help you explore our menu, make reservations, find our location, and answer any questions you have. How can I assist you today?"
    case MenuTopic => "We have an amazing selection of pizzas including Pepperoni, Supreme, Margherita, BBQ Chicken, Hawaiian, and Veggie Delight! We also offer appetizers, salads, desserts, and beverages. Would you like to see our full menu?"
    case ReservationTopic => "I can help you make a reservation! You can select your preferred date, time, number of guests, and even pre-order food items. Would you like to go to our reservation page?"
    case HoursTopic => "We're open Monday-Thursday 11am-10pm, Friday-Saturday 11am-11pm, and Sunday 12pm-9pm. Would you like to make a reservation?"
    case LocationTopic => "We're located at 123 Pizza Street, Food City, FC 12345. You can find us near the central plaza! Would you like directions or contact information?"
    case ContactTopic => "You can reach us at (555) 123-4567 or email us at info@shakeyspizza.com. We're always happy to help!"
    case PriceTopic => "Our pizzas range from $11.99 to $15.99 depending on the type. We also have great deals on appetizers and combo meals. Would you like to see our full menu with prices?"
    case DeliveryTopic => "We currently offer dine-in and takeout services. You can make a reservation for dine-in through our website to ensure you get a table at your preferred time!"
    case EventTopic => "We love hosting special events and birthday celebrations! Just mention it in the notes when making your reservation, and we'll make sure your celebration is memorable!"
    case OtherTopic => "I'm here to help you with information about our menu, reservations, hours, location, and more! What would you like to know about Shakey's Pizza?"
  }

  /**
   * `BotpressChatbot.getFallbackResponse`: a message containing "hello", "hi" or "hey" gets the
   * greeting, whatever else it asks; one that asks about the menu without greeting gets the
   * menu reply; one with no keyword of any class gets the general reply.
   */
  function GetFallbackResponse(message: string): (r: string)
    ensures var lower := ToLower(message);
      && (Greets(lower) ==> r == FallbackText(Greeting))
      && (!Greets(lower) && AsksMenu(lower) ==> r == FallbackText(MenuTopic))
      && (!Greets(lower) && !AsksMenu(lower) && !AsksReservation(lower) && !AsksHours(lower)
          && !AsksLocation(lower) && !AsksContact(lower) && !AsksPrice(lower)
          && !Contains(lower, "how much") && !AsksDelivery(lower) && !AsksEvent(lower)
          ==> r == FallbackText(OtherTopic))
  {
    FallbackText(FallbackTopic(ToLower(message)))
  }

  /**
   * The greeting test looks for "hi" anywhere, so "which pizza is best?" gets the greeting
   * and not the menu reply, although it names a pizza.
   */
  lemma WhichPizzaGreets()
    ensures AsksMenu("which pizza is best?")
    ensures FallbackTopic(ToLower("which pizza is best?")) == Greeting
  {
    var s := "which pizza is best?";
    assert ToLower(s) == s;
    assert MatchAt(s, "hi", 1);
    assert s[6..11] == "pizza";
    assert MatchAt(s, "pizza", 6);
  }

  /**
   * The page name in a reply: `intent.replace('view_', '').replace('make_', '').replace(/_/g, ' ')`.
   * It holds no `_`; an intent with neither prefix keeps its text with every `_` made a space.
   */
  function PageName(intent: string): (r: string)
    ensures '_' !in r
    ensures !Contains(intent, "view_") && !Contains(intent, "make_") ==>
      |r| == |intent| && forall i | 0 <= i < |r| :: r[i] == if intent[i] == '_' then ' ' else intent[i]
  {
    ReplaceAllChar(ReplaceFirst(ReplaceFirst(intent, "view_", ""), "make_", ""), '_', ' ')
  }

  /** An intent `view_` + name, where the name has no `_` and no `k`, offers the page by that name. */
  lemma ViewPage(name: string)
    requires 'k' !in name && '_' !in name
    ensures PageName("view_" + name) == name
  {
    var v := "view_" + name;
    assert StartsWith(v, "view_") && v[5..] == name;
    assert ReplaceFirst(v, "view_", "") == name;
    RefuteByChar(name, "make_", 2);
    assert ReplaceFirst(name, "make_", "") == name;
    assert ReplaceAllChar(name, '_', ' ') == name;
  }

  /** An intent `make_` + name, where the name has no `_` and no `w`, offers the page by that name. */
  lemma MakePage(name: string)
    requires 'w' !in name && '_' !in name
    ensures PageName("make_" + name) == name
  {
    var r := "make_" + name;
    RefuteByChar(r, "view_", 3);
    assert ReplaceFirst(r, "view_", "") == r;
    assert StartsWith(r, "make_") && r[5..] == name;
    assert ReplaceFirst(r, "make_", "") == name;
    assert ReplaceAllChar(name, '_', ' ') == name;
  }

  /** The menu intent offers "the menu page". */
  lemma MenuPageName()
    ensures PageName(MenuIntent.intent) == "menu"
  {
    assert MenuIntent.intent == "view_" + "menu";
    ViewPage("menu");
  }

  /** The reservation intent offers "the reservation page". */
  lemma ReservationPageName()
    ensures PageName(ReservationIntent.intent) == "reservation"
  {
    assert ReservationIntent.intent == "make_" + "reservation";
    MakePage("reservation");
  }

  const OfferSuffix := " page if you'd like!"

  /** `handleFallback`: the canned text, plus the page offer and its path when the message names a page. */
  function HandleFallback(navs: seq<NavigationIntent>, message: string): (r: ChatbotResponse)
    ensures r.confidence == Some(0.7)
    ensures |r.suggestions| == 3
  {
    var text := GetFallbackResponse(message);
    var suggestions := GenerateContextualSuggestions(message);
    match NavigationIntentOf(navs, ToLower(message))
    case Some(nav) =>
      ChatbotResponse(text + "\n\nI can take you to the " + PageName(nav.intent) + OfferSuffix, Some(nav.path), Some(0.7), suggestions)
    case None =>
      ChatbotResponse(text, None, Some(0.7), suggestions)
  }

  /**
   * The local reply of the service leads to the path of the best-scoring intent and offers
   * its page by name, after the canned text. With positive priorities, it leads somewhere
   * exactly when some page keyword occurs in the message.
   */
  lemma HandleFallbackNavigates(navs: seq<NavigationIntent>, message: string)
    requires forall nav | nav in navs :: nav.priority > 0
    ensures var lower, r := ToLower(message), HandleFallback(navs, message);
      && (r.navigateTo.Some? <==> exists j, k | 0 <= j < |navs| && k in navs[j].keywords :: Contains(lower, k))
      && (r.navigateTo.Some? ==>
            exists i :: (FirstMax(lower, navs, i) && Score(lower, navs[i]) > 0
                         && r.navigateTo.value == navs[i].path
                         && r.message == GetFallbackResponse(message) + "\n\nI can take you to the " + PageName(navs[i].intent) + OfferSuffix))
      && (r.navigateTo.None? ==> r.message == GetFallbackResponse(message))
      && r.suggestions == GenerateContextualSuggestions(message)
  {
    NavigationNone(navs, ToLower(message));
    NavigationChoice(navs, ToLower(message));
  }

  // ---------------------------------------------------------------- one exchange with the service

  /**
   * What the Botpress service does with one message; the service itself is outside the model.
   * `created` is the id `createConversation` returns, or None when that call throws. `replies`
   * holds the texts of the outgoing text messages listed afterwards, newest first, or is None
   * when `createMessage` or `listMessages` throws.
   */
  datatype RemoteOutcome = RemoteOutcome(created: Option<string>, replies: Option<seq<string>>)

  /** `!context.conversationId`: there is no id yet, or it is the empty string. */
  predicate NeedsConversation(ctx: ConversationContext) {
    ctx.conversationId == None || ctx.conversationId == Some("")
  }

  /** The stored context of a user, or the empty one `getOrCreateContext` would create. */
  function ContextOf(contexts: map<string, ConversationContext>, userId: string): ConversationContext {
    if userId in contexts then contexts[userId] else ConversationContext(userId, None, [])
  }

  /** The reply built from the service's text: the page offer and its path when the message names a page. */
  function RemoteReply(intent: Option<NavigationIntent>, message: string, botText: string): ChatbotResponse {
    var suggestions := GenerateContextualSuggestions(message);
    match intent
    case Some(nav) =>
      ChatbotResponse(botText + "\n\nWould you like me to take you to the " + PageName(nav.intent) + " page?",
                      Some(nav.path), Some(0.9), suggestions)
    case None =>
      ChatbotResponse(botText, None, Some(0.5), suggestions)
  }

  datatype Exchange = Exchange(context: ConversationContext, response: ChatbotResponse)

  /** Whether the outcome makes some remote call throw for this context. */
  predicate RemoteFails(ctx: ConversationContext, outcome: RemoteOutcome) {
    (NeedsConversation(ctx) && outcome.created.None?) || outcome.replies.None?
  }

  /** `BotpressChatbot.sendMessage` on one user's context: the context afterwards and the reply. */
  function SendExchange(ctx: ConversationContext, navs: seq<NavigationIntent>, message: string, outcome: RemoteOutcome): Exchange {
    var asked := ctx.(history := ctx.history + [ChatMessage(UserRole, message)]);
    if NeedsConversation(ctx) && outcome.created.None? then
      Exchange(asked, HandleFallback(navs, message))
    else
      var withId := if NeedsConversation(ctx) then asked.(conversationId := outcome.created) else asked;
      match outcome.replies
      case None => Exchange(withId, HandleFallback(navs, message))
      case Some(texts) =>
        var botText := if |texts| > 0 then texts[0] else GetFallbackResponse(message);
        Exchange(withId.(history := withId.history + [ChatMessage(AssistantRole, botText)]),
                 RemoteReply(NavigationIntentOf(navs, ToLower(message)), message, botText))
  }

  /**
   * One exchange keeps the user and the earlier history. It appends the user's message, and
   * then the assistant's reply unless a remote call failed. An existing conversation id is kept.
   */
  lemma SendHistory(ctx: ConversationContext, navs: seq<NavigationIntent>, message: string, outcome: RemoteOutcome)
    ensures var e := SendExchange(ctx, navs, message, outcome);
      && e.context.userId == ctx.userId
      && (RemoteFails(ctx, outcome) ==> e.context.history == ctx.history + [ChatMessage(UserRole, message)])
      && (!RemoteFails(ctx, outcome) ==>
            e.context.history == ctx.history + [ChatMessage(UserRole, message), ChatMessage(AssistantRole, e.context.history[|ctx.history| + 1].content)])
      && (!NeedsConversation(ctx) ==> e.context.conversationId == ctx.conversationId)
      && (NeedsConversation(ctx) && outcome.created.Some? ==> e.context.conversationId == outcome.created)
  {
  }

  /**
   * A failed remote call gives the local reply of `handleFallback`, the only reply with
   * confidence 0.7. Whatever the outcome, the reply leads to the best-scoring intent's path
   * and carries the contextual suggestions.
   */
  lemma SendResponse(ctx: ConversationContext, navs: seq<NavigationIntent>, message: string, outcome: RemoteOutcome)
    ensures var r := SendExchange(ctx, navs, message, outcome).response;
      && (RemoteFails(ctx, outcome) ==> r == HandleFallback(navs, message))
      && (r.confidence == Some(0.7) <==> RemoteFails(ctx, outcome))
      && r.navigateTo == (match NavigationIntentOf(navs, ToLower(message)) case Some(nav) => Some(nav.path) case None => None)
      && r.suggestions == GenerateContextualSuggestions(message)
  {
  }

  // ---------------------------------------------------------------- the service client

  /** Storing a user's context twice keeps only the second. */
  lemma Overwrite(m: map<string, ConversationContext>, k: string, v: ConversationContext, w: ConversationContext)
    ensures m[k := v][k := w] == m[k := w]
  {
  }

  /** `BotpressChatbot`: the conversation store and the navigation map. The API client is not modelled. */
  class BotpressChatbot {
    var contexts: map<string, ConversationContext>
    const navigationMap: seq<NavigationIntent>

    constructor ()
      ensures contexts == map[] && navigationMap == NavigationMap()
    {
      contexts := map[];
      navigationMap := NavigationMap();
    }

    /** `analyzeNavigationIntent`: the nested loops over intents and keywords. */
    method AnalyzeNavigationIntent(message: string) returns (r: Option<NavigationIntent>)
      ensures r == NavigationIntentOf(navigationMap, ToLower(message))
    {
      var lower := ToLower(message);
      var bestMatch: Option<NavigationIntent> := None;
      var highestScore := 0;
      for i := 0 to |navigationMap|
        invariant Best(highestScore, bestMatch) == Scan(lower, navigationMap[..i])
      {
        var nav := navigationMap[i];
        var score := 0;
        for k := 0 to |nav.keywords|
          invariant score == IntentScore(lower, nav.keywords[..k], nav.priority)
        {
          var keyword := nav.keywords[k];
          assert nav.keywords[..k + 1][..k] == nav.keywords[..k];
          if Contains(lower, keyword) {
            score := score + nav.priority;
            if StartsWith(lower, keyword) || EndsWith(lower, keyword) {
              score := score + 2;
            }
          }
        }
        assert nav.keywords[..|nav.keywords|] == nav.keywords;
        if score > highestScore {
          highestScore := score;
          bestMatch := Some(nav);
        }
        assert navigationMap[..i + 1][..i] == navigationMap[..i];
      }
      assert navigationMap[..|navigationMap|] == navigationMap;
      r := if highestScore > 0 then bestMatch else None;
    }

    /** `getOrCreateContext`: an empty context is added only for an absent user; everyone else's context stays as it was. */
    method GetOrCreateContext(userId: string) returns (ctx: ConversationContext)
      modifies this
      ensures userId in old(contexts) ==> contexts == old(contexts)
      ensures userId !in old(contexts) ==> contexts == old(contexts)[userId := ConversationContext(userId, None, [])]
      ensures userId in contexts && ctx == contexts[userId] && ctx == ContextOf(old(contexts), userId)
      ensures contexts == old(contexts)[userId := ctx]
    {
      if userId !in contexts {
        contexts := contexts[userId := ConversationContext(userId, None, [])];
      }
      ctx := contexts[userId];
    }

    /** `sendMessage`: every remote failure is caught here and answered with `handleFallback`. */
    method SendMessage(userId: string, message: string, outcome: RemoteOutcome) returns (resp: ChatbotResponse)
      modifies this
      ensures contexts == old(contexts)[userId := SendExchange(ContextOf(old(contexts), userId), navigationMap, message, outcome).context]
      ensures resp == SendExchange(ContextOf(old(contexts), userId), navigationMap, message, outcome).response
    {
      var ctx := GetOrCreateContext(userId);
      ghost var stored := old(contexts);
      ctx := ctx.(history := ctx.history + [ChatMessage(UserRole, message)]);
      Overwrite(stored, userId, contexts[userId], ctx);
      contexts := contexts[userId := ctx];
      var intent := AnalyzeNavigationIntent(message);
      if ctx.conversationId == None || ctx.conversationId == Some("") {
        if outcome.created.None? {
          resp := HandleFallback(navigationMap, message);
          return;
        }
        ctx := ctx.(conversationId := outcome.created);
        Overwrite(stored, userId, contexts[userId], ctx);
        contexts := contexts[userId := ctx];
      }
      if outcome.replies.None? {
        resp := HandleFallback(navigationMap, message);
        return;
      }
      var texts := outcome.replies.value;
      var botResponse := if |texts| > 0 then texts[0] else GetFallbackResponse(message);
      ctx := ctx.(history := ctx.history + [ChatMessage(AssistantRole, botResponse)]);
      Overwrite(stored, userId, contexts[userId], ctx);
      contexts := contexts[userId := ctx];
      resp := RemoteReply(intent, message, botResponse);
    }

    /** `resetConversation`: only this user's context goes. */
    method ResetConversation(userId: string)
      modifies this
      ensures contexts == old(contexts) - {userId}
    {
      contexts := contexts - {userId};
    }

    /** `getConversationHistory`: the stored history, or none for an unknown user. */
    method GetConversationHistory(userId: string) returns (h: seq<ChatMessage>)
      ensures userId in contexts ==> h == contexts[userId].history
      ensures userId !in contexts ==> h == []
    {
      h := if userId in contexts then contexts[userId].history else [];
    }

    /** `clearAllContexts`. */
    method ClearAllContexts()
      modifies this
      ensures contexts == map[]
    {
      contexts := map[];
    }
  }

  // ---------------------------------------------------------------- the manager

  /** The subjects of the manager's own replies. */
  datatype LocalTopic =
    | LocalGreeting | LocalMenu | LocalReservation | LocalHours | LocalLocation
    | LocalContact | LocalPrice | LocalOther

  /** The subject `SmartChatbotManager.getFallbackResponse` answers: the first keyword class the message matches. */
  function LocalTopicOf(lower: string): LocalTopic {
    if Greets(lower) then LocalGreeting
    else if AsksMenu(lower) then LocalMenu
    else if AsksReservation(lower) then LocalReservation
    else if AsksHours(lower) then LocalHours
    else if AsksLocation(lower) then LocalLocation
    else if AsksContact(lower) then LocalContact
    else if AsksPrice(lower) then LocalPrice
    else LocalOther
  }

  function LocalText(t: LocalTopic): string {
    match t
    case LocalGreeting => "Hello! Welcome to Shakey's Pizza! I'm your AI assistant. How can I help you today?"
    case LocalMenu => "We have delicious pizzas including Pepperoni, Supreme, Margherita, BBQ Chicken, Hawaiian, and Veggie Delight! Plus appetizers, salads, and desserts."
    case LocalReservation => "I can help you make a reservation! Select your date, time, and number of guests."
    case LocalHours => "We're open Mon-Thu 11am-10pm, Fri-Sat 11am-11pm, Sun 12pm-9pm."
    case LocalLocation => "We're at 123 Pizza Street, Food City, FC 12345, near the central plaza!"
    case LocalContact => "Reach us at (555) 123-4567 or info@shakeyspizza.com"
    case LocalPrice => "Pizzas range from $11.99 to $15.99. Check our menu for detailed pricing!"
    case LocalOther => "I can help with menu info, reservations, hours, location, and more! What would you like to know?"
  }

  /** The page a local reply leads to: set by the menu, reservation, location, contact and price branches only. */
  function LocalPath(t: LocalTopic): (p: Option<string>)
    ensures p.Some? ==> p.value in {"/menu", "/reservation", "/contact"}
  {
    match t
    case LocalMenu => Some("/menu")
    case LocalReservation => Some("/reservation")
    case LocalLocation => Some("/contact")
    case LocalContact => Some("/contact")
    case LocalPrice => Some("/menu")
    case _ => None
  }

  function LocalSuggestions(t: LocalTopic): (r: seq<string>)
    ensures |r| == 3
  {
    match t
    case LocalGreeting => ["View menu", "Make a reservation", "Contact us"]
    case LocalMenu => ["Show me the menu", "Make a reservation", "What are the prices?"]
    case LocalReservation => ["Book now", "View menu", "What are your hours?"]
    case LocalHours => ["Make a reservation", "View menu", "Get directions"]
    case LocalLocation => ["Contact us", "Make a reservation", "View menu"]
    case LocalContact => ["Make a reservation", "View menu", "Get directions"]
    case LocalPrice => ["View menu", "Make a reservation", "Any specials?"]
    case LocalOther => ["View menu", "Make a reservation", "Contact us"]
  }

  /** `SmartChatbotManager.getFallbackResponse`: text, path and suggestions of the first matching class, without a confidence. */
  function LocalFallback(message: string): (r: ChatbotResponse)
    ensures |r.suggestions| == 3 && r.confidence == None
  {
    var t := LocalTopicOf(ToLower(message));
    ChatbotResponse(LocalText(t), LocalPath(t), None, LocalSuggestions(t))
  }

  /**
   * A greeting always wins and never navigates. Otherwise the local reply navigates exactly
   * when the first matching class is menu, reservation, location, contact or price.
   */
  lemma LocalFallbackNavigation(message: string)
    ensures var lower, r := ToLower(message), LocalFallback(message);
      && (Greets(lower) ==> LocalTopicOf(lower) == LocalGreeting && r.navigateTo == None)
      && (r.navigateTo.Some? <==>
            !Greets(lower) && (AsksMenu(lower) || AsksReservation(lower)
                               || (!AsksHours(lower) && (AsksLocation(lower) || AsksContact(lower) || AsksPrice(lower)))))
  {
  }

  /**
   * `SmartChatbotManager`. The Botpress client exists exactly when the manager is not in
   * fallback mode. Neither field changes after construction: the client's `sendMessage`
   * catches every remote failure itself, so the manager's own catch, which would switch to
   * fallback mode, is never reached.
   */
  class SmartChatbotManager {
    var botpressChatbot: BotpressChatbot?
    var fallbackMode: bool

    predicate Valid()
      reads this
    {
      fallbackMode <==> botpressChatbot == null
    }

    /**
     * `configuredKey` is `apiKey || process.env.VITE_BOTPRESS_API_KEY`, the empty string when
     * neither is set. `initFails` says whether constructing the Botpress client throws.
     */
    constructor (configuredKey: string, initFails: bool)
      ensures Valid()
      ensures fallbackMode <==> configuredKey == "" || initFails
      ensures botpressChatbot != null ==> fresh(botpressChatbot) && botpressChatbot.contexts == map[]
                                          && botpressChatbot.navigationMap == NavigationMap()
    {
      botpressChatbot := null;
      fallbackMode := false;
      if configuredKey != "" {
        if initFails {
          fallbackMode := true;
        } else {
          botpressChatbot := new BotpressChatbot();
        }
      } else {
        fallbackMode := true;
      }
    }

    /** `sendMessage`: the remote path when there is a client and the manager is not in fallback mode, the local reply otherwise. */
    method SendMessage(userId: string, message: string, outcome: RemoteOutcome) returns (resp: ChatbotResponse)
      requires Valid()
      modifies botpressChatbot
      ensures Valid()
      ensures fallbackMode ==> resp == LocalFallback(message)
      ensures !fallbackMode ==>
        && resp == SendExchange(ContextOf(old(botpressChatbot.contexts), userId), botpressChatbot.navigationMap, message, outcome).response
        && botpressChatbot.contexts == old(botpressChatbot.contexts)[userId :=
             SendExchange(ContextOf(old(botpressChatbot.contexts), userId), botpressChatbot.navigationMap, message, outcome).context]
    {
      if botpressChatbot != null && !fallbackMode {
        resp := botpressChatbot.SendMessage(userId, message, outcome);
        return;
      }
      resp := LocalFallback(message);
    }

    /** `resetConversation`: delegated to the client when there is one. */
    method ResetConversation(userId: string)
      modifies botpressChatbot
      ensures botpressChatbot != null ==> botpressChatbot.contexts == old(botpressChatbot.contexts) - {userId}
    {
      if botpressChatbot != null {
        botpressChatbot.ResetConversation(userId);
      }
    }

    /** `getHistory`: the client's history for the user, or none without a client. */
    method GetHistory(userId: string) returns (h: seq<ChatMessage>)
      ensures botpressChatbot != null && userId in botpressChatbot.contexts ==> h == botpressChatbot.contexts[userId].history
      ensures botpressChatbot == null || userId !in botpressChatbot.contexts ==> h == []
    {
      h := [];
      if botpressChatbot != null {
        h := botpressChatbot.GetConversationHistory(userId);
      }
    }
  }
}
