# Restaurant reservation site: analytics, chatbots and form logic

This project is a Dafny model of the logic at the heart of a pizza restaurant's reservation
site. It proves properties of that logic. The site itself is written in TypeScript and React.
The model covers the following parts.

- **The reporting aggregator** (`src/ai/analytics2.ts`). It turns reservations and feedback
  into the admin dashboard's chart series:
  - the status breakdown;
  - completed reservations and guests per weekday and per month;
  - the peak-hour cells per weekday or month and hour;
  - the top-three-plus-"Others" pies for tables and food;
  - the top-rated foods;
  - the average rating per feedback category.
- **The navigation-aware chatbot** (`src/ai/chatbot2.ts`):
  - the keyword scorer that picks the page a message asks for;
  - the contextual suggestions and canned replies;
  - the per-user conversation store of `BotpressChatbot`;
  - `SmartChatbotManager`, which chooses between the remote service and its own replies.
- **The older pattern chatbot** (`src/ai/chatbot.ts`): the first category whose patterns
  occur in a message picks the reply.
- **The older analytics** (`src/ai/analytics.ts`): peak hours, their prediction, the most
  ordered items, feedback sentiment and the insight cards.
- **The page logic**:
  - the reservation form (`src/pages/Reservation.tsx`): tables, order lines, submit and
    edit, and the calendar layout;
  - the feedback survey (`src/pages/Feedback.tsx`);
  - the menu's categories and rating dialog (`src/pages/Menu.tsx`).

Modules:

- `Wrappers`: an `Option`.
- `Strings`: `includes`, `startsWith`, `endsWith`, ASCII `toLowerCase`, `parseInt`,
  `padStart`, `join`, `split` and `replace`.
- `Collections`: `filter`, sums, counting into a `Map` in first-insertion order, the stable
  sort, the `Object.entries` key order, and `new Set`.
- `Types`: the stored records.
- One module per source file: `Analytics2`, `Chatbot2`, `Chatbot`, `Analytics`,
  `ReservationPage`, `FeedbackPage` and `MenuPage`.
- `Stars`: the star rows both pages draw.

How the source's forms carry over:

- Loops that fill arrays or maps become methods with loop invariants. Each is proved equal
  to a specification function, and the lemmas state what that function promises.
- Objects whose fields change become classes: `BotpressChatbot` and `SmartChatbotManager`.
- The page handlers become functions from one page state to the next.

Dates come already decoded into year, month (0 for January) and weekday (0 for Sunday), as
`new Date(...)` yields them in the site's time zone. Numbers are exact integers and reals.

Two behaviours of the code differ from what one might expect, and the model follows the code:

- `SmartChatbotManager` never switches to fallback mode after construction.
  `BotpressChatbot.sendMessage` catches every remote error itself
  (src/ai/chatbot2.ts:202-205), so the manager's own catch is never reached.
- The feedback survey's "Submit does nothing without a user" holds, but nothing checks the
  answers. An untouched survey is sent with ratings of 0 and an empty recommendation.

## Model

| member | source | states |
|---|---|---|
| Analytics2.FilterByDateRange | src/ai/analytics2.ts:49-54 | keeps exactly the reservations whose year lies in [startYear, endYear] |
| Analytics2.FilterByDateRangeOrder | src/ai/analytics2.ts:49-54 | the date filter keeps the original order (distributes over concatenation) |
| Analytics2.GetReservationStatusBreakdown | src/ai/analytics2.ts:80-91 | total is the number of reservations; active + completed + noshow ≤ total, with equality exactly when every reservation has one of these statuses |
| Analytics2.StatusCountsBound | src/ai/analytics2.ts:82-85 | the three status filters are exclusive, so their lengths add up to at most the input length, with equality iff every status is one of them |
| Analytics2.FillBuckets | src/ai/analytics2.ts:105-110 | the zero-filled array incremented in a `forEach` holds, in bucket b, the total weight of the reservations in bucket b |
| Analytics2.BucketsSum | src/ai/analytics2.ts:105-110 | every reservation lands in exactly one bucket: the buckets add up to the total weight |
| Analytics2.GetDailyCompletedReservations | src/ai/analytics2.ts:96-120 | labels are the seven weekday names, 7 values; value d counts the completed in-range reservations on weekday d; the values sum to their number |
| Analytics2.GetMonthlyCompletedReservations | src/ai/analytics2.ts:125-149 | labels are the twelve month names, 12 values; value m counts the completed in-range reservations in month m; the values sum to their number |
| Analytics2.GetDailyTotalGuests | src/ai/analytics2.ts:242-266 | 7 values; value d sums the party sizes of completed or active in-range reservations on weekday d; the total is the sum of all their party sizes |
| Analytics2.GetMonthlyTotalGuests | src/ai/analytics2.ts:271-295 | 12 values; value m sums the party sizes of completed or active in-range reservations in month m; the total is the sum of all their party sizes |
| Analytics2.HourSlotRoundTrip | src/ai/analytics2.ts:64-68 | the slot `HH:00-HH:00` built from a readable hour reads back as that hour; for an hour that is not negative it has exactly one dash, and the part after it reads back as the next hour |
| Analytics2.HourSlotNaN | src/ai/analytics2.ts:64-68 | the slot is the literal "NaN:00-NaN:00" exactly when the time's hour does not parse |
| Analytics2.GetHourSlot | src/ai/analytics2.ts:64-68 | the slot reads back, through `parseInt` of the part before the first colon, as the hour of the time it was built from, NaN included |
| Analytics2.NaNSlotHour | src/ai/analytics2.ts:64-68 | the NaN slot reads back as NaN |
| Analytics2.StartHour | src/ai/analytics2.ts:167 | a start time whose part before the first colon is a run of decimal digits starts at that number |
| Analytics2.EndHour | src/ai/analytics2.ts:168-171 | an unreadable end time gives no hour; an end time whose part before the first colon is a run of digits ends at that number, one less when it ends with ":00" |
| Analytics2.HoursOf | src/ai/analytics2.ts:167-174 | no hours when either hour is unreadable; otherwise the hours from the start hour upward, as many as the span from the start hour to the end hour holds |
| Analytics2.HoursFacts | src/ai/analytics2.ts:167-174 | a reservation occupies exactly the hours from its start hour to its end hour (one less when the end time ends with ":00"), increasing, none when an hour does not parse; when the start time begins with a digit no occupied hour is negative |
| Analytics2.PeakOneHour | src/ai/analytics2.ts:167-176 | 18:00 to 19:00 occupies only hour 18 |
| Analytics2.PeakHalfPast | src/ai/analytics2.ts:167-176 | 18:00 to 19:30 occupies hours 18 and 19 |
| Analytics2.PeakEmptyHour | src/ai/analytics2.ts:167-176 | 18:00 to 18:00 occupies no hour |
| Analytics2.CountHours | src/ai/analytics2.ts:173-179 | the `for` loop over one reservation's hours leaves the counting map equal to the tally of all increments so far |
| Analytics2.CountPeakEntries | src/ai/analytics2.ts:164-180 | the loop over reservations and their hours leaves the counting map equal to the tally of all (label, hour) entries |
| Analytics2.KeyDecode | src/ai/analytics2.ts:183-188 | the key `${label}-${hour}` splits at "-" back into its label, and `parseInt` of the second piece gives the hour when it is not negative and NaN otherwise |
| Analytics2.CellKeyInjective | src/ai/analytics2.ts:175 | two cells with labels without a dash have the same key only when they have the same label and hour |
| Analytics2.TallyCell | src/ai/analytics2.ts:174-189 | each counting-map entry is the key of a (label, hour) cell that some reservation occupies; its count is that cell's hit count (at least 1) and its decoded hour is the hour or NaN |
| Analytics2.PeakCellFacts | src/ai/analytics2.ts:183-189 | one cell carries a weekday or month label and the hit count of its hour, a readable hour being at least 0 |
| Analytics2.GetPeakHours | src/ai/analytics2.ts:154-237 | the nested loops and the `Object.entries` conversion of `getDailyPeakHours`/`getMonthlyPeakHours` yield exactly the specified peak cells |
| Analytics2.PeakCellsCounts | src/ai/analytics2.ts:154-237 | every cell has a weekday or month label and counts the completed or active in-range reservations occupying its hour (at least 1); a cell whose hour is readable has an hour of at least 0, and its count is the hits of that hour |
| Analytics2.PeakCellsDistinct | src/ai/analytics2.ts:154-237 | no two cells with a readable hour share a (label, hour) pair |
| Analytics2.PeakCellsComplete | src/ai/analytics2.ts:154-237 | every hour of every completed or active in-range reservation has its cell, and that cell holds its number of hits |
| Analytics2.TableLabel | src/ai/analytics2.ts:327-329 | the first table with the id gives the label: its name, or "Table <id>" when the name is empty; an id no table has is labelled "Table <id>" |
| Analytics2.FindTable | src/ai/analytics2.ts:328 | `find` returns the first table with the id, and nothing iff no table has it |
| Analytics2.PieOf | src/ai/analytics2.ts:322-337 | at most four slices: the first three ranked entries with their labels and counts; the fourth slice is "Others" iff there are more than three entries |
| Analytics2.BuildPie | src/ai/analytics2.ts:322-337 | the loop pushing the top three labels and counts, then "Others", builds the specified pie |
| Analytics2.GetTopReservedTables | src/ai/analytics2.ts:300-348 | the counting `Map`, the sort and the pie loop yield the specified table pie |
| Analytics2.GetTopOrderedFood | src/ai/analytics2.ts:353-406 | the counting `Map` (accumulating quantities in place), the sort and the pie loop yield the specified food pie |
| Analytics2.PieSum | src/ai/analytics2.ts:325-337 | the slices add up to the counts of all ranked entries |
| Analytics2.PieDescending | src/ai/analytics2.ts:319-330 | the first three slices come by non-increasing count |
| Analytics2.RankingFacts | src/ai/analytics2.ts:310-320 | the ranking has one entry per distinct key, sorted by count, with the counts adding up to the total weight |
| Analytics2.RankingTies | src/ai/analytics2.ts:319-320 | entries with equal counts keep the order in which their keys were first seen (stable sort) |
| Analytics2.RankingNames | src/ai/analytics2.ts:366-374 | each ranked entry carries the name of its key's first occurrence |
| Analytics2.TopTablesFacts | src/ai/analytics2.ts:300-348 | at most 4 slices, the first three non-increasing, "Others" last iff more than 3 distinct table ids, and the data sums to the number of table bookings |
| Analytics2.TopFoodFacts | src/ai/analytics2.ts:353-406 | the same shape over the ordered quantities of completed in-range reservations, summing to the total quantity |
| Analytics2.TopFoodLabels | src/ai/analytics2.ts:366-374 | each of the first three food slices is labelled with the food name of the first order seen for its food id |
| Analytics2.GetTopRatedFoods | src/ai/analytics2.ts:411-444 | the result is sorted by non-increasing average rating and is a permutation of the reviewed items' records |
| Analytics2.TopRatedMembers | src/ai/analytics2.ts:418-428 | a record is listed iff it comes from a menu item with at least one review |
| Analytics2.TopRatedTies | src/ai/analytics2.ts:428 | foods with equal ratings keep their menu order |
| Analytics2.FeedbackInRangeMembers | src/ai/analytics2.ts:454-458 | feedback is kept iff it has no creation date or its year lies in the range |
| Analytics2.Divisor | src/ai/analytics2.ts:488 | `filtered.length \|\| 1` is at least 1 and equals the length when there is feedback |
| Analytics2.GetAverageRatingsByCategory | src/ai/analytics2.ts:449-506 | the `forEach` accumulation yields the six category labels in fixed order and each category total divided by the divisor |
| Analytics2.AveragesEmpty | src/ai/analytics2.ts:488-496 | with no kept feedback all six averages are 0 |
| Analytics2.AveragesWithinStars | src/ai/analytics2.ts:479-496 | when kept feedback exists and all its ratings are 1-5 stars, every average lies in [1, 5] |
| Chatbot2.NavigationMap | src/ai/chatbot2.ts:37-76 | six page intents, each with a positive priority |
| Chatbot2.IntentScoreSign | src/ai/chatbot2.ts:84-92 | with a positive priority an intent's score is never negative, and positive iff one of its keywords occurs |
| Chatbot2.ScanFacts | src/ai/chatbot2.ts:83-98 | the scan holds the highest score, an intent iff that score is positive, and the first intent reaching it (strict `>`) |
| Chatbot2.NavigationChoice | src/ai/chatbot2.ts:78-101 | the chosen intent has the maximal, positive score and no earlier intent ties it; null iff no intent scores above 0 |
| Chatbot2.NavigationNone | src/ai/chatbot2.ts:78-101 | with positive priorities the result is null iff no keyword of any intent occurs in the lower-cased message |
| Chatbot2.ShowMeTheMenu | src/ai/chatbot2.ts:40-43 | "show me the menu" is classified as `view_menu`, whose path is `/menu` |
| Chatbot2.MenuOnly | src/ai/chatbot2.ts:38-75 | a message with "menu" and none of the letters or letter pairs of the other intents' keywords selects the menu intent |
| Chatbot2.SoleScorer | src/ai/chatbot2.ts:94-100 | when only the first intent scores, it is chosen |
| Chatbot2.BotpressChatbot.AnalyzeNavigationIntent | src/ai/chatbot2.ts:78-101 | the nested loops return the specified intent |
| Chatbot2.GenerateContextualSuggestions | src/ai/chatbot2.ts:103-120 | always exactly three suggestions |
| Chatbot2.SuggestionsFirstMatch | src/ai/chatbot2.ts:107-117 | each suggestion set is returned iff its class is the first to match, in the order menu, booking, price, location, default |
| Chatbot2.FallbackTopic | src/ai/chatbot2.ts:208-248 | the greeting topic iff hello/hi/hey occurs; the menu topic iff no greeting and a menu word; the general topic iff no keyword class matches |
| Chatbot2.GetFallbackResponse | src/ai/chatbot2.ts:208-248 | a greeting gets the greeting text; a menu question without a greeting gets the menu text; a message with no keyword gets the general text |
| Chatbot2.WhichPizzaGreets | src/ai/chatbot2.ts:211-217 | "which pizza is best?" names a pizza but gets the greeting, because "hi" is searched anywhere |
| Chatbot2.PageName | src/ai/chatbot2.ts:263 | the page name holds no `_`; for an intent without `view_` or `make_` it is the intent with each `_` turned into a space |
| Chatbot2.ViewPage | src/ai/chatbot2.ts:263 | an intent `view_<name>` is offered as the page `<name>` |
| Chatbot2.MakePage | src/ai/chatbot2.ts:263 | an intent `make_<name>` is offered as the page `<name>` |
| Chatbot2.MenuPageName | src/ai/chatbot2.ts:263 | the menu intent is offered as "menu" |
| Chatbot2.ReservationPageName | src/ai/chatbot2.ts:263 | the reservation intent is offered as "reservation" |
| Chatbot2.HandleFallback | src/ai/chatbot2.ts:250-267 | the local reply has confidence 0.7 and three suggestions |
| Chatbot2.HandleFallbackNavigates | src/ai/chatbot2.ts:250-267 | the reply navigates iff some page keyword occurs, then to the best intent's path with its page name appended; otherwise the text is the canned reply |
| Chatbot2.SendHistory | src/ai/chatbot2.ts:132-200 | one exchange appends the user's message, then the assistant's reply unless a remote call failed; a conversation id, once set, is kept |
| Chatbot2.SendResponse | src/ai/chatbot2.ts:132-206 | a failed remote call gives `handleFallback`'s reply, the only one with confidence 0.7; every reply navigates to the best intent's path |
| Chatbot2.BotpressChatbot.constructor | src/ai/chatbot2.ts:28-35 | no contexts; the navigation map is the six intents |
| Chatbot2.BotpressChatbot.GetOrCreateContext | src/ai/chatbot2.ts:122-130 | an empty context is added only for an absent user; every other context is unchanged; the user's stored context is returned |
| Chatbot2.BotpressChatbot.SendMessage | src/ai/chatbot2.ts:132-206 | the store and the reply are those of the specified exchange for the user's context |
| Chatbot2.BotpressChatbot.ResetConversation | src/ai/chatbot2.ts:269-271 | removes only this user's context |
| Chatbot2.BotpressChatbot.GetConversationHistory | src/ai/chatbot2.ts:273-276 | the stored history, or [] for an unknown user |
| Chatbot2.BotpressChatbot.ClearAllContexts | src/ai/chatbot2.ts:278-280 | the store becomes empty |
| Chatbot2.LocalPath | src/ai/chatbot2.ts:321-350 | a local reply leads only to /menu, /reservation or /contact |
| Chatbot2.LocalSuggestions | src/ai/chatbot2.ts:321-350 | every local reply carries three suggestions |
| Chatbot2.LocalFallback | src/ai/chatbot2.ts:314-353 | three suggestions and no confidence |
| Chatbot2.LocalFallbackNavigation | src/ai/chatbot2.ts:321-350 | a greeting always wins and never navigates; otherwise the reply navigates iff it asks about the menu or a reservation, or, without asking the hours, about the location, contact or prices |
| Chatbot2.SmartChatbotManager.constructor | src/ai/chatbot2.ts:287-299 | fallback mode is on iff no key is configured or the client fails to start; the client exists iff fallback mode is off |
| Chatbot2.SmartChatbotManager.SendMessage | src/ai/chatbot2.ts:301-312 | fallback mode stays as it was; in fallback mode the reply is the local one, otherwise the client's exchange |
| Chatbot2.SmartChatbotManager.ResetConversation | src/ai/chatbot2.ts:355-359 | delegates to the client when there is one |
| Chatbot2.SmartChatbotManager.GetHistory | src/ai/chatbot2.ts:361-366 | the client's history for the user, or [] |
| Chatbot.Rank | src/ai/chatbot.ts:59-104 | each category's position in the `if` chain, the default after all of them |
| Chatbot.MatchesPattern | src/ai/chatbot.ts:107-109 | true iff some pattern occurs in the message |
| Chatbot.FirstMatching | src/ai/chatbot.ts:62-104 | the position of the first category in the list that matches; none before it matches |
| Chatbot.RandomResponse | src/ai/chatbot.ts:111-114 | for a random number in [0, 1) the reply is one of the category's responses |
| Chatbot.FloorIndex | src/ai/chatbot.ts:113 | `Math.floor(random * n)` is a valid index for a random number in [0, 1) |
| Chatbot.ClassifyAt | src/ai/chatbot.ts:62-104 | the k-th category in the order of the `if` chain is chosen when it matches and none before it does |
| Chatbot.Classify | src/ai/chatbot.ts:59-105 | the chosen category matches (unless it is the default) and no category earlier in the `if` chain matches |
| Chatbot.GetResponse | src/ai/chatbot.ts:59-105 | the reply is one of the category's texts; it navigates to /menu exactly for the menu category, to /reservation exactly for the reservation category, nowhere otherwise |
| Chatbot.Responses | src/ai/chatbot.ts:13-57 | every category has at least two replies to choose from |
| Chatbot.NoPatternDefault | src/ai/chatbot.ts:104 | a message with no pattern gets a default reply and no navigation |
| Chatbot.HoursBeforeTable | src/ai/chatbot.ts:73-82 | a message with "time" and "table" (no greeting or menu word) gets an hours reply and no navigation |
| Analytics.AnalyzePeakHours | src/ai/analytics.ts:44-62 | the counting loop, the labelling and the sort yield the specified hour list |
| Analytics.PeakHoursTotal | src/ai/analytics.ts:47-52 | the counts add up to the number of reservations that are not cancelled |
| Analytics.PeakHoursDistinct | src/ai/analytics.ts:54-58 | every hour appears once |
| Analytics.PeakHoursCounts | src/ai/analytics.ts:47-58 | each entry is the hour of a reservation that is not cancelled, with the number of such reservations at that hour |
| Analytics.PeakHoursComplete | src/ai/analytics.ts:47-58 | every reservation that is not cancelled has an entry for its hour |
| Analytics.PeakHoursSorted | src/ai/analytics.ts:59 | when every label reads as a number, entries come in ascending `parseInt` order of their labels; in all cases in ascending order of the hour the model ranks them by (an unreadable label ranks as 0) |
| Analytics.PredictEmpty | src/ai/analytics.ts:97-103 | no hour data gives no peaks and confidence 0 |
| Analytics.PredictPeakHours | src/ai/analytics.ts:94-117 | no hour data gives the "insufficient data" note, no peaks and confidence 0; otherwise the confidence is min(95, 50 + n/10) with n counting every reservation, cancelled ones included, and the note lists the peak hours joined by ", " or says that there are none |
| Analytics.PredictPeaks | src/ai/analytics.ts:105-116 | the peaks are exactly the hours whose count exceeds 1.2 × the mean, listed busiest first; the confidence is min(95, 50 + n/10) over all reservations, so it lies in [50, 95] |
| Analytics.CancelledRaisesConfidence | src/ai/analytics.ts:94-117 | a cancelled reservation leaves the hour data, peaks and note unchanged, never lowers the confidence and raises it below the cap |
| Analytics.ConfidenceMonotone | src/ai/analytics.ts:115 | min(95, 50 + n/10) never falls as n grows, and rises while n < 450 |
| Analytics.PeakMembers | src/ai/analytics.ts:106-108 | an hour is a peak iff some hour with that label is above the threshold |
| Analytics.PeaksSorted | src/ai/analytics.ts:108 | peaks are listed from the busiest down |
| Analytics.NotAllPeaks | src/ai/analytics.ts:105-108 | with non-negative counts, not every hour can exceed 1.2 × the mean |
| Analytics.PredictFewerPeaks | src/ai/analytics.ts:94-117 | there are fewer predicted peaks than hours with reservations |
| Analytics.AnalyzeMostOrderedItems | src/ai/analytics.ts:119-134 | the nested counting loops, the sort and the cut to ten yield the specified list |
| Analytics.MostOrderedFacts | src/ai/analytics.ts:119-134 | at most 10 entries, busiest first, no name twice, each count the number of times the name was ordered (occurrences, not quantities) |
| Analytics.MostOrderedTop | src/ai/analytics.ts:130-133 | an ordered name missing from the list is ordered no more often than any listed name, and the list is then full |
| Analytics.MostOrderedNonEmpty | src/ai/analytics.ts:122-133 | the list is non-empty iff something was ordered in a reservation that is not cancelled |
| Analytics.AnalyzeSentiment | src/ai/analytics.ts:136-188 | the one-pass loop yields the specified analysis |
| Analytics.SentimentEmpty | src/ai/analytics.ts:137-145 | empty input gives neutral, score 0, average "0" and an all-zero distribution |
| Analytics.SentimentPartition | src/ai/analytics.ts:162-168 | every feedback falls in exactly one class |
| Analytics.SentimentFields | src/ai/analytics.ts:147-177 | the score, overall verdict and distribution come from the class counts and the mean rating |
| Analytics.SentimentScore | src/ai/analytics.ts:155-172 | the distribution adds up to n and the score lies in [-100, 100], reaching 100 iff every feedback is positive |
| Analytics.SentimentOverall | src/ai/analytics.ts:171-177 | positive iff the rating total ≥ 4n, neutral iff it is ≥ 3n but < 4n, negative otherwise |
| Analytics.PositiveWordsWin | src/ai/analytics.ts:159-163 | when every comment holds a positive word, every feedback is positive whatever its rating, and the score is 100 |
| Analytics.RoundTenths | src/ai/analytics.ts:178-183 | `toFixed(1)` gives the nearest tenth, the larger on a tie |
| Analytics.GenerateInsights | src/ai/analytics.ts:190-237 | the cards are those built from the four analyses |
| Analytics.PushCards | src/ai/analytics.ts:194-234 | the conditional pushes produce the specified cards |
| Analytics.InsightKinds | src/ai/analytics.ts:190-237 | the cards' kinds come in the order peak hours, popular items, sentiment, demand: a peak card iff there are peaks, a popular card iff some item was ordered, always a sentiment card, a demand card iff more than 10 reservations are upcoming; 1 to 4 cards |
| Analytics.InsightKindsDistinct | src/ai/analytics.ts:190-237 | no kind occurs twice |
| Analytics.InsightCards | src/ai/analytics.ts:203-219 | the sentiment card carries the summary, with confidence 85 above five feedbacks and 60 otherwise; the popular card describes the first item |
| ReservationPage.ToggleFacts | src/pages/Reservation.tsx:216-229 | for a non-empty id: a selected id is removed with all its copies and other ids keep their membership; an unselected id is appended |
| ReservationPage.ToggleKeepsOrder | src/pages/Reservation.tsx:219-222 | removing an id keeps the other ids' relative order |
| ReservationPage.ToggleTwice | src/pages/Reservation.tsx:216-229 | toggling an unselected non-empty id twice restores the selection |
| ReservationPage.ToggleEmptyId | src/pages/Reservation.tsx:217-227 | the empty id is falsy for `find`, so toggling it always appends |
| ReservationPage.ToggleDiningTable | src/pages/Reservation.tsx:216-229 | the toggled id ends up selected iff it was not selected or it is the empty id; every other id keeps its membership |
| ReservationPage.AddOrderItem | src/pages/Reservation.tsx:174-191 | no change on an empty menu; otherwise one line is appended with the first menu item's id, name and price, quantity 1 and no instructions |
| ReservationPage.RemoveOrderItem | src/pages/Reservation.tsx:193-198 | a line stays iff it was there and has another id; the list never grows |
| ReservationPage.RemoveOrderItemFacts | src/pages/Reservation.tsx:193-198 | exactly the lines with the id are removed; removing an absent id changes nothing; removing twice is removing once |
| ReservationPage.RemoveKeepsOrder | src/pages/Reservation.tsx:193-198 | the remaining lines keep their order |
| ReservationPage.FindMenuItem | src/pages/Reservation.tsx:202 | the first menu item with the id, or none when there is none |
| ReservationPage.UpdateOrderItem | src/pages/Reservation.tsx:200-214 | a food id from the menu writes that item's name and price into the caller's updates; only lines with the id change, by the updates; the length is kept |
| ReservationPage.UpdateFromMenu | src/pages/Reservation.tsx:200-214 | a line that takes a food id from the menu takes that item's name and price with it |
| ReservationPage.RequestOf | src/pages/Reservation.tsx:98-139 | an update iff an id is being edited, carrying that id; the user's id and full name, no status, the form's tables, date, notes, times and party size, and one order per form line |
| ReservationPage.HandleSubmit | src/pages/Reservation.tsx:98-139 | nothing happens without a user; otherwise the two loops build the record (tables in order, one order per line), sent as an update iff an id is being edited; the form resets and closes |
| ReservationPage.HandleEdit | src/pages/Reservation.tsx:141-160 | the form opens with the reservation's date, times, party size, notes and tables, and one line per order carrying its food, price, quantity, instructions or '' and its id or '' when it has none; it edits the reservation's id when that is non-empty |
| ReservationPage.EditRemoveEmptyId | src/pages/Reservation.tsx:141-160 | removing the line '' after an edit drops every order stored without an id and keeps exactly those with one |
| ReservationPage.EditSubmitRoundTrip | src/pages/Reservation.tsx:98-160 | editing a stored reservation and submitting it unchanged sends an update of the same reservation (order ids dropped, missing instructions become '') |
| ReservationPage.EditWithoutIdCreates | src/pages/Reservation.tsx:128-133 | a reservation without an id comes back as a create |
| ReservationPage.CalendarDays | src/pages/Reservation.tsx:237-243 | as many blanks as the first day's weekday, then the days of the month |
| ReservationPage.CalendarLayout | src/pages/Reservation.tsx:237-243 | the blanks come first and day d follows in order, in the column of its weekday |
| FeedbackPage.Position | src/pages/Feedback.tsx:35-50 | each question's position in the survey |
| FeedbackPage.UpdateQuestionValue | src/pages/Feedback.tsx:53-57 | length, ids and kinds are unchanged |
| FeedbackPage.ValueOf | src/pages/Feedback.tsx:53-57 | there is no answer for an id iff no question has it |
| FeedbackPage.UpdateThenRead | src/pages/Feedback.tsx:53-57 | after an update the id answers the new value and every other id answers what it did before |
| FeedbackPage.UpdateKeepsShape | src/pages/Feedback.tsx:53-57 | the survey keeps its fourteen questions, ids and kinds |
| FeedbackPage.ToggleFoodSelection | src/pages/Feedback.tsx:60-66 | the food's membership flips and every other food's is kept (the empty id included) |
| FeedbackPage.ToggleFoodTwice | src/pages/Feedback.tsx:60-66 | toggling an unselected food twice restores the list |
| FeedbackPage.ToggleFoodDistinct | src/pages/Feedback.tsx:60-66 | a list without repeats stays without repeats |
| FeedbackPage.DtoOf | src/pages/Feedback.tsx:68-89 | the record carries the user's id and full name, each rating or text field the answer of the question at its position, and the selected foods joined by commas |
| FeedbackPage.DtoReadsById | src/pages/Feedback.tsx:71-89 | for the page's survey, each record field holds the answer of the question whose id names it: reading by position reads by id |
| FeedbackPage.FavoriteFoodsRoundTrip | src/pages/Feedback.tsx:88 | splitting the comma-joined foods gives the selection back when it is non-empty and no id holds a comma; no selection is sent as '' |
| FeedbackPage.Reset | src/pages/Feedback.tsx:94-99 | every question keeps its id and kind and gets the empty answer of its kind |
| FeedbackPage.ResetRestoresInitial | src/pages/Feedback.tsx:94-99 | clearing the answers gives the initial survey iff the questions have the survey's ids and kinds |
| FeedbackPage.ResetForgetsUpdate | src/pages/Feedback.tsx:53-99 | an answer given before the reset leaves no trace |
| FeedbackPage.HandleSubmitFeedback | src/pages/Feedback.tsx:68-106 | nothing without a user; otherwise the record built from the answers is sent, the foods are cleared, the thank-you shows and a survey of the page's shape returns to its initial state |
| FeedbackPage.UnansweredSurveySent | src/pages/Feedback.tsx:35-89 | the untouched survey is sent with each question's empty answer and no foods |
| FeedbackPage.InitialShaped | src/pages/Feedback.tsx:35-50 | the initial survey has the survey's shape |
| FeedbackPage.DisplayRating | src/pages/Feedback.tsx:125-126 | a non-zero hover wins; otherwise a numeric answer, else 0 |
| FeedbackPage.QuestionStars | src/pages/Feedback.tsx:123-127 | five stars per rating question |
| FeedbackPage.ClickedStarsShow | src/pages/Feedback.tsx:124-136 | after clicking star n and leaving the row, exactly the first n stars are filled |
| Stars.StarRowPrefix | src/pages/Menu.tsx:83-84 | star i is filled iff i ≤ the displayed rating: the filled stars form a prefix of the row |
| Stars.StarRowCount | src/pages/Menu.tsx:83-84 | the number of filled stars is the rating clamped to [0, count] |
| MenuPage.Categories | src/pages/Menu.tsx:29 | the first button is "All" |
| MenuPage.CategoriesFacts | src/pages/Menu.tsx:29 | after "All" come every item's category and nothing else, each once |
| MenuPage.FilteredItems | src/pages/Menu.tsx:30-32 | an item is shown iff "All" is selected or it is of the selected category; never more items than the menu has |
| MenuPage.CategoryNeverEmpty | src/pages/Menu.tsx:29-32 | every category button other than "All" shows at least one item |
| MenuPage.ItemUnderOwnCategory | src/pages/Menu.tsx:30-32 | an item appears under a category button iff it is its own category |
| MenuPage.AllNamedCategory | src/pages/Menu.tsx:29-32 | an item whose category is "All" gets a duplicate "All" button that shows every item |
| MenuPage.Round | src/pages/Menu.tsx:67 | `Math.round` gives the nearest integer, halves upward |
| MenuPage.RenderStars | src/pages/Menu.tsx:64-78 | one star per perfect-rating point |
| MenuPage.RenderStarsFilled | src/pages/Menu.tsx:64-78 | star i+1 is filled iff the average is at least i + 0.5 |
| MenuPage.HandleRateClick | src/pages/Menu.tsx:38-42 | the dialog opens on the item with the score and the hover cleared |
| MenuPage.ClickStar | src/pages/Menu.tsx:91 | clicking a star sets the score and changes nothing else |
| MenuPage.HandleSubmitRating | src/pages/Menu.tsx:44-57 | a rating is sent iff an item is open, the score is above 0 and a user is logged in; it is that user's score for that item, and the dialog then closes with its score cleared |
| MenuPage.FreshDialogSendsNothing | src/pages/Menu.tsx:38-45 | a freshly opened dialog sends nothing |
| MenuPage.RateItem | src/pages/Menu.tsx:38-91 | opening on an item, clicking star i and submitting sends score i for that item and closes the dialog |
| MenuPage.DialogStars | src/pages/Menu.tsx:80-98 | five stars |
| MenuPage.ClickedDialogStars | src/pages/Menu.tsx:80-98 | with the pointer off the row, exactly the first i stars are filled after clicking star i |
| MenuPage.HoveredDialogStars | src/pages/Menu.tsx:80-98 | while the pointer is on star j, exactly the first j stars are filled, whatever the score |
| MenuPage.ClosedDialogSendsNothing | src/pages/Menu.tsx:197-222 | a closed dialog sends nothing |
| Collections.SortDescSorted | src/ai/analytics2.ts:319-320 | the comparator sort orders by non-increasing key |
| Collections.SortDescStable | src/ai/analytics2.ts:319-320 | the sort is stable: equal keys keep their relative order |
| Collections.SortDesc | src/ai/analytics2.ts:319-320 | the sort keeps the length and the elements (a permutation) |
| Collections.TalliesCount | src/ai/analytics2.ts:310-316 | each count in a counting `Map` is the total weight of its key |
| Collections.TalliesOrder | src/ai/analytics2.ts:310-319 | the `Map` lists keys in the order of first insertion |
| Collections.CountEntries | src/ai/analytics2.ts:310-316 | the loop adding one entry at a time to the counting `Map` leaves the tally of everything added so far |
| Collections.CountAll | src/ai/analytics2.ts:310-316 | the nested loops over a list and each element's entries leave the tally of all entries |
| Collections.ObjectEntries | src/ai/analytics.ts:54 | `Object.entries` lists every key and count of the object once: a permutation of the insertion order |
| Collections.ObjectEntriesNamed | src/ai/analytics.ts:54 | `Object.entries` of an object without array-index keys lists them in insertion order |
| Collections.Distinct | src/pages/Menu.tsx:29 | `new Set` keeps every element once |
| Collections.DistinctFirstAppearance | src/pages/Menu.tsx:29 | `new Set` keeps the order of first appearance |
| Strings.ToLower | src/ai/chatbot.ts:60 | the length is kept, no upper-case ASCII letter remains, and a text without one is unchanged |
| Strings.ParseInt | src/ai/analytics2.ts:65 | a text starting with a digit reads as a number that is not negative, or NaN only after a hexadecimal prefix; an empty text, or one starting with neither a digit, white space nor a sign, is NaN |
| Strings.ParseIntSkipsSpace | src/ai/analytics2.ts:65 | white space before the number is skipped |
| Strings.ParseIntSign | src/ai/analytics2.ts:65 | a minus sign negates the number after it; a plus sign leaves it unchanged |
| Strings.ParseIntSpaceExample | src/ai/analytics2.ts:65 | `parseInt(" 9")` is 9 |
| Strings.ParseIntSignExample | src/ai/analytics2.ts:65 | `parseInt("-1")` is -1 |
| Strings.ParseIntHexExample | src/ai/analytics2.ts:65 | `parseInt("0x12")` is 18 and `parseInt("0x")` is NaN |
| Strings.ParseIntDigits | src/ai/analytics2.ts:65 | a non-empty run of decimal digits reads as its decimal value |
| Strings.ParseIntOfNumber | src/ai/analytics2.ts:65 | `parseInt` of a printed number followed by a non-digit gives the number back |
| Strings.ParseIntOfInt | src/ai/analytics2.ts:187 | a printed integer, negative or not, reads back as itself when no digit follows it |
| Strings.ParsePaddedNumber | src/ai/analytics2.ts:65-67 | a zero-padded integer reads back as itself when no digit follows it |
| Strings.SplitJoin | src/pages/Feedback.tsx:88 | splitting a joined list gives it back when no element holds the separator |

## Left out

- The Botpress service: network calls, the one-second wait and the sort of the listed
  messages by creation time (src/ai/chatbot2.ts:145-186). What the service does with one
  message is an input: the conversation id it creates, or none when that call throws, and
  the newest outgoing texts, or none when a later call throws.
- The API module and `loadData` calls after a submit: they only fetch. Each page models a
  successful API call. When a call throws, the page's later state updates do not run, and
  the model does not show that path.
- `setTimeout` (the thank-you message hiding after three seconds) and logging.
- React rendering, `useEffect` and the auth context. The logged-in user is a parameter.
- JS `Date`: parsing and time zones, `format`/`startOfMonth`/`endOfMonth`, and the comparison
  for upcoming reservations against `new Date()` (src/ai/analytics.ts:221-225). That comparison
  is a parameter. Calendar days come from the first weekday and the number of days.
- `analyzeDemandByDate` (src/ai/analytics.ts:64-92): it depends on the week-start date
  arithmetic and `localeCompare`.
- TensorFlow: the `tf.tidy`/`tensor1d`/`dataSync` float32 round trips. `calculateStatistics`,
  `normalizeData` and `calculateMovingAverage` (src/ai/analytics2.ts:513-561), which nothing
  in the core calls.
- Analytics2.GetTopRatedFoods: the year bounds are accepted and ignored, as in the source.
- Floating point: averages, the 1.2 threshold and `toFixed(1)` are exact reals. Ratings are
  integers.
- Strings.ToLower: lower-cases ASCII letters only, not the rest of Unicode.
- Strings.ParseInt: numbers are exact, so a run of digits beyond double precision is not
  rounded.
- Chatbot2.GetFallbackResponse: states which reply each keyword class gets, not the converse
  (that the reply text tells which class matched). `FallbackTopic` states the converse on
  topics; the reply texts themselves are long constants.
- Analytics.AnalyzePeakHours: a label that reads as NaN makes the comparator return NaN, and
  the engine's sort then decides its place. The model ranks such a label as hour 0.
- PeakHoursSorted: the `parseInt` order is stated when every label is readable; otherwise the
  order is the model's (NaN ranked as 0), as above.
- Analytics2.PeakCellsDistinct: the cells of negative hours read back as NaN, and two of them
  can share a label, so distinctness is stated for readable hours. `CellKeyInjective` shows
  the keys themselves never collide.
- Analytics.AnalyzePeakHours: keys that are array indices (all-digit hours such as "9") come
  first in `Object.entries`. The general case is proved in `Collections.ObjectEntries`. The
  count and order lemmas are stated for the ascending sort that follows, so the order does
  not matter there.
- ReservationPage.UpdateOrderItem: an explicit `undefined` inside a `Partial` update is not
  modelled. A field is either given or absent. `Updates` has no `id` field, so an update that
  renames a line is not modelled; no call site passes one (src/pages/Reservation.tsx:430-458).
- ReservationPage.AddOrderItem: the new line's UUID is a parameter.
- Analytics.AnalyzePeakHours: the hour labels are counted in a plain object with
  `(obj[k] || 0) + 1` (src/ai/analytics.ts:45-50). A label that names an `Object.prototype`
  member behaves differently there: "constructor" starts from the inherited function and
  gives a string count, and "__proto__" goes to the prototype setter and is dropped. The
  model counts every label as an ordinary key, so `PeakHoursTotal`, `PeakHoursCounts` and
  `PeakHoursComplete` describe the source only for labels that are not such names.
- Analytics.AnalyzeMostOrderedItems: the same holds for item names
  (src/ai/analytics.ts:120-125). A food named "toString" or "__proto__" is counted as an
  ordinary key, so `MostOrderedFacts` and `MostOrderedNonEmpty` describe the source only for
  names that are not `Object.prototype` members.
- The star `onMouseEnter` and `onClick` handlers are modelled as state updates
  (`Hover`, `ClickStar`, `HoverLeave`). The JSX around them is left out.
- FeedbackPage: the question wording is display text. Questions are known by id and kind.
- Chatbot.RandomResponse: `Math.random()` is a parameter in [0, 1).
- FeedbackPage.HandleSubmitFeedback: requires the fourteen questions the survey always has. `UpdateKeepsShape` and `ResetRestoresInitial` show that the page keeps them.
- MenuPage.DialogStars: the dialog tests `hoverRating > 0` where the survey uses `||`. Both are modelled as written.
- The `responses` and navigation-map objects are built once, and the model holds them as
  constants. The `Object.prototype` lookups a category name could hit are not modelled.
