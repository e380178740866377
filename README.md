# SimpleShopGame: a verified model of the game core

SimpleShopGame is a children's shop game for iOS. The player serves customers
in one of four shops (fruit stand, bakery, cake shop, restaurant). A round is
played in one of four modes. In the shopping and listening modes the player
taps the products a customer orders. In the calculation quiz the player types
the total number of items. In the price quiz the player types an amount of
yen. A round ends when the clock runs out or after three mistakes, and the
best score per mode and time limit is kept. The game also has a customer mode
(fill a cart from a shopping list, then pay for it) and a puppy to look after.

This project models that core in Dafny:

- `GameData.dfy`: the product, order-line and order records; the shop kinds
  and their Japanese and English names; the four shipped product tables; and
  the shuffle, written as an explicit index permutation.
- `Quiz.dfy`: the three order generators with their score tiers and the
  answer items a quiz order carries. It also holds the change quiz's
  whole-yen payment rounding, the choice of generator for a round (with the
  fall-back to shopping), and the judge that compares a submission with the
  current order. Each random draw is a parameter whose range is a
  precondition, and the `Draw` value groups the draws of one round.
- `Cart.dfy`: the customer-mode cart as a value. It covers adding a product
  by key, removing one unit of a line by its identity, and the amount due.
- `Session.dfy`: the class `GameViewModel`. Its fields are the ones the Swift
  view model updates: screen state, mode, shop, language, score and
  mistakes, remaining seconds, timer, feedback overlay, high-score store,
  cart and payment, and the puppy's stats. Its methods update them step by
  step, the way the Swift methods do. Each callback of the one-second timer
  and of every delayed `asyncAfter` block of the rounds and of the payment is
  a method of its own, for the environment to call.
- `ContentView.dfy`: the rules the main screen adds. They are the 3-digit
  number pad and the row of hearts. They also cover the language button,
  which mode buttons are offered (listening only in English) and the shop
  buttons.

Two behaviours of the code, modelled as written:

- The price-quiz judge expects the order's total price even in a change
  quiz. The expected answer is the sum of price × quantity over the order
  lines that name a real product. In a change quiz the player is asked for
  the change, and typing it counts as a mistake whenever the total is above
  100 yen and not exactly 500 (`Quiz.ChangeRoundRejectsChange`).
- The number pad accepts at most three digits. Any two restaurant dishes
  together cost at least 1000 yen, so no typed answer can ever win a
  restaurant price quiz (`Quiz.RestaurantPriceRoundUnanswerable`).

## Model

| member | source | states |
|---|---|---|
| GameData.LocalizedName | Models/GameData.swift:53-70 | the label is the raw value (`nameJA`) exactly when the language is "ja", and `nameEN` for every other code |
| GameData.LocalizedNamesDistinct | Models/GameData.swift:30-70 | two different shops never share a label, in either language |
| GameData.ShippedTablesWellFormed | Models/GameData.swift:90-127 | every shop's table has six products, pairwise distinct keys, and positive prices that are multiples of 10 |
| GameData.FruitTableWellFormed | Models/GameData.swift:90-97 | the fruit table has six products, distinct keys and well-formed prices |
| GameData.BakeryTableWellFormed | Models/GameData.swift:100-107 | the bakery table has six products, distinct keys and well-formed prices |
| GameData.CakeTableWellFormed | Models/GameData.swift:110-117 | the cake table has six products, distinct keys and well-formed prices |
| GameData.RestaurantTableWellFormed | Models/GameData.swift:120-127 | the restaurant table has six products, distinct keys and well-formed prices |
| GameData.ProductsFor | ViewModels/GameViewModel.swift:362-372 | the table of each shop; `ShippedTablesWellFormed` states what every table satisfies |
| GameData.Permute | ViewModels/GameViewModel.swift:375 | a shuffle keeps the table's length |
| GameData.PermutePreserves | ViewModels/GameViewModel.swift:375 | a shuffle draws only products of the table and keeps keys distinct and prices well formed |
| GameData.PermuteKeepsEveryProduct | ViewModels/GameViewModel.swift:375 | a shuffle loses no product: every product of the table is in the shuffled list |
| GameData.PermuteMultiset | ViewModels/GameViewModel.swift:375 | a shuffle is a reordering: the shuffled list holds each product exactly as often as the table |
| GameData.PermutationHits | ViewModels/GameViewModel.swift:375 | a permutation of 0..n-1 takes every value below n at some position |
| GameData.PermutationDrop | ViewModels/GameViewModel.swift:375 | removing the position that holds n-1 from a permutation of 0..n-1 leaves a permutation of 0..n-2 |
| GameData.PermuteDrop | ViewModels/GameViewModel.swift:375 | shuffling the table without its last product by the shortened permutation gives the shuffle with that product's position removed |
| GameData.PermutationPrefixImage | ViewModels/GameViewModel.swift:375 | the first k positions of a permutation hold k different values |
| Quiz.ShippedTablesHaveNoSentinels | Models/GameData.swift:90-127 | no shipped product uses one of the four answer-item keys |
| Quiz.ProductLines | ViewModels/GameViewModel.swift:416-423 | the lines name the first k products of the shuffle, each with its drawn quantity, and products with distinct keys give lines with distinct keys |
| Quiz.MaxItemTypes | ViewModels/GameViewModel.swift:409-413 | the shopping tier's number of lines (1, then min(2, n), then min(3, n)); `ShoppingOrder` states the bounds it puts on an order |
| Quiz.MaxQuantityPerItem | ViewModels/GameViewModel.swift:409-413 | the shopping tier's largest quantity (1, 2, 2, 3); `ShoppingOrder` states the bounds it puts on an order |
| Quiz.ShoppingOrder | ViewModels/GameViewModel.swift:406-425 | the order has between 1 and maxItemTypes lines (1, then min(2, n), then min(3, n) by score tier); every quantity is between 1 and the tier's maximum (1, 2, 2, 3); keys are distinct |
| Quiz.CalculationQuizOrder | ViewModels/GameViewModel.swift:428-454 | with fewer than two products there is no quiz; otherwise two product lines with quantities 1..3 and distinct keys, then a `total_quantity_answer` line holding their sum (2..6) |
| Quiz.PriceItemCount | ViewModels/GameViewModel.swift:459-480 | the price tier's number of lines: 2, 2, 3, or 2 or 3 in a change quiz; `PriceQuizOrder` states the order it gives |
| Quiz.PriceMaxQuantity | ViewModels/GameViewModel.swift:459-480 | the price tier's largest quantity: 1 below score 3, 2 from then on; `PriceQuizOrder` states the order it gives |
| Quiz.SelectedTotal | ViewModels/GameViewModel.swift:494-498 | the running total of price × quantity over the selected products; `ProductLinesTotal` and `SelectedTotalGrows` state its properties |
| Quiz.PaymentFor | ViewModels/GameViewModel.swift:504-519 | the amount the customer hands over in a change quiz; `PaymentForBounds` and `PaymentCoins` state its properties |
| Quiz.CeilDivBounds | ViewModels/GameViewModel.swift:509-513 | rounding up to a multiple of 100 or 500 gives a value at least the amount and less than one step above it |
| Quiz.PaymentForBounds | ViewModels/GameViewModel.swift:504-519 | the payment always exceeds the total and is a multiple of 100 (of 500 from 500 yen on), and it overshoots by at most 100 below 500 yen and by at most 500 above that |
| Quiz.PaymentCoins | ViewModels/GameViewModel.swift:505-516 | from 100 yen on, the payment is the total rounded up to the next whole step (100 below 500 yen, 500 above) |
| Quiz.PriceQuizOrder | ViewModels/GameViewModel.swift:457-531 | there is no quiz exactly when the table is smaller than the tier's item count; otherwise the product lines come first, then `price_answer` = total, or `payment_amount` and `change_answer`; the priced lines sum to the selected total |
| Quiz.RoundMode | ViewModels/GameViewModel.swift:379-403 | the mode a round is played in: the chosen one, or shopping when its quiz cannot be built; `NewRoundOrder` states it |
| Quiz.RoundOrder | ViewModels/GameViewModel.swift:379-403 | the order a round poses, from the generator of `RoundMode`; `NewRoundOrder` states it |
| Quiz.NewRoundOrder | ViewModels/GameViewModel.swift:379-403 | the order and mode a round gets are the generator of the current mode, or shopping when a quiz cannot be built |
| Quiz.ShippedTablesNeverFallBack | ViewModels/GameViewModel.swift:431-435 | with six products neither quiz falls back to shopping |
| Quiz.FindProduct | ViewModels/GameViewModel.swift:924-926 | a product found has the key and comes from the list; nothing is found exactly when no product has the key |
| Quiz.FindProductFirst | ViewModels/GameViewModel.swift:924-926 | the product found is the first one with the key |
| Quiz.FindProductOfDistinct | ViewModels/GameViewModel.swift:924-926 | with distinct keys, looking a product up by its key finds that product |
| Quiz.SentinelNotFound | ViewModels/GameViewModel.swift:581-586 | an answer-item key is never found among the products |
| Quiz.PriceTotalAppend | ViewModels/GameViewModel.swift:581-588 | the priced total of two runs of lines is the sum of their totals |
| Quiz.PriceTotalIgnoresUnknown | ViewModels/GameViewModel.swift:581-588 | lines naming no product add nothing to the priced total |
| Quiz.UnknownLinesTotalZero | ViewModels/GameViewModel.swift:581-588 | lines naming no product total zero |
| Quiz.PriceTotal | ViewModels/GameViewModel.swift:581-588 | the price-quiz answer: price × quantity summed over the lines that name a product; `PriceTotalAppend` and `PriceTotalIgnoresUnknown` state its properties |
| Quiz.OrderMap | ViewModels/GameViewModel.swift:566-568 | the order's key-to-quantity dictionary, a later line overwriting an earlier one; `OrderMapContents` states its contents |
| Quiz.OrderMapKeys | ViewModels/GameViewModel.swift:566-568 | the order's key-to-quantity map has exactly the order's keys |
| Quiz.OrderMapValues | ViewModels/GameViewModel.swift:566-568 | with distinct keys, the map gives every line's quantity for its key |
| Quiz.OrderMapContents | ViewModels/GameViewModel.swift:566-568 | with distinct keys, the map has the order's keys and each line's quantity |
| Quiz.DistinctItemsOccurOnce | ViewModels/GameViewModel.swift:566-568 | with distinct keys, no line occurs twice |
| Quiz.PermutedItemsDistinct | ViewModels/GameViewModel.swift:566-568 | reordering lines keeps keys distinct |
| Quiz.FindInPermuted | ViewModels/GameViewModel.swift:566-568 | every line of an order appears in any reordering of it |
| Quiz.PermutedItemKeys | ViewModels/GameViewModel.swift:566-568 | reordering lines keeps the set of keys |
| Quiz.OrderMapPermutation | ViewModels/GameViewModel.swift:566-568 | with distinct keys, reordering lines does not change the map |
| Quiz.ParseInt | ViewModels/GameViewModel.swift:589 | the empty string does not parse; a non-empty digit string parses to its decimal value |
| Quiz.FirstItemWithKey | ViewModels/GameViewModel.swift:573 | a line found has the key and comes from the order; none is found exactly when no line has the key |
| Quiz.FirstItemWithKeyFirst | ViewModels/GameViewModel.swift:573 | the line found is the first one with the key |
| Quiz.IsCorrectSubmission | ViewModels/GameViewModel.swift:560-591 | the judge of a submission in each mode; `ShoppingJudgeExact`, `CalculationJudgeAcceptsSum` and `PriceRoundAcceptsTotal` state what it accepts |
| Quiz.ShoppingJudgeExact | ViewModels/GameViewModel.swift:565-569 | in shopping and listening, a submission is correct iff the selection has exactly the order's keys, each with the ordered quantity |
| Quiz.ShoppingJudgeIgnoresLineOrder | ViewModels/GameViewModel.swift:565-569 | the shopping verdict does not depend on the order of the lines |
| Quiz.CalculationJudgeAcceptsSum | ViewModels/GameViewModel.swift:571-577 | a calculation answer is correct iff the typed text parses to the sum of the two quantities |
| Quiz.ProductLinesTotal | ViewModels/GameViewModel.swift:494-498 | the priced total of the generated product lines is the total the generator accumulates |
| Quiz.PriceRoundAcceptsTotal | ViewModels/GameViewModel.swift:579-591 | in a generated price round, the accepted answer is exactly the selected total |
| Quiz.ChangeRoundRejectsChange | ViewModels/GameViewModel.swift:579-591 | a change round's last line holds the positive change, and typing that change is judged wrong when the total is above 100 and not 500 |
| Quiz.DigitsValueBelow | ContentView.swift:472 | a digit string of length n has a value below 10^n |
| Quiz.TypedAnswerBound | ContentView.swift:472 | a pad answer parses to nothing when empty, and otherwise to a number between 0 and 999 |
| Quiz.RestaurantPairCost | Models/GameData.swift:120-127 | any two different dishes cost at least 1000 yen together |
| Quiz.SelectedTotalGrows | ViewModels/GameViewModel.swift:494-498 | the selected total is never negative and, with two or more lines, is at least the first two prices |
| Quiz.ShuffledRestaurantWellFormed | ViewModels/GameViewModel.swift:375 | the shuffled restaurant table keeps distinct keys and well-formed prices, and uses no answer key |
| Quiz.ShuffledRestaurantPairCost | Models/GameData.swift:120-127 | any two different positions of the shuffled restaurant table cost at least 1000 yen together |
| Quiz.RestaurantPriceRoundUnanswerable | ViewModels/GameViewModel.swift:579-591 | with the restaurant table in any shuffled order, no answer the pad can type wins a price round |
| Cart.IndexOfKey | ViewModels/GameViewModel.swift:990 | the index found is the first that holds the key; none is found exactly when no line has the key |
| Cart.IndexOfId | ViewModels/GameViewModel.swift:1001 | the index found is the first that holds the identity; none is found exactly when no line has it |
| Cart.CartAdded | ViewModels/GameViewModel.swift:985-996 | the cart after adding one unit of a product; `CartAddedQuantity`, `CartAddedWellFormed` and `CartTotalAdded` state its properties |
| Cart.CartRemoved | ViewModels/GameViewModel.swift:999-1009 | the cart after removing one unit of a line; `CartRemovedQuantity` and `CartRemovedWellFormed` state its properties |
| Cart.CartLines | ViewModels/GameViewModel.swift:1026 | the cart read as order lines, one per entry, with the same key and quantity; a well-formed cart gives lines with distinct keys |
| Cart.CartTotal | ViewModels/GameViewModel.swift:1026-1033 | the amount due for the cart; `CartTotalUpdate` and `CartTotalAdded` state how it changes |
| Cart.QuantityOfAppend | ViewModels/GameViewModel.swift:993 | a key's quantity in two joined carts is the sum of its quantities in each |
| Cart.QuantityOfUpdate | ViewModels/GameViewModel.swift:991 | replacing one line changes a key's quantity by the difference between the two lines |
| Cart.QuantityOfDelete | ViewModels/GameViewModel.swift:1005 | deleting a line takes that line's quantity off its key |
| Cart.CartAddedWellFormed | ViewModels/GameViewModel.swift:985-996 | adding keeps keys unique, identities unique and quantities at least 1 |
| Cart.CartAddedQuantity | ViewModels/GameViewModel.swift:985-996 | adding a product raises its key's quantity by one and leaves every other key's quantity alone |
| Cart.CartAddedQuantities | ViewModels/GameViewModel.swift:985-996 | the same, for every key at once |
| Cart.CartAddedKeepsOthers | ViewModels/GameViewModel.swift:985-996 | lines with other keys stay where they were, unchanged |
| Cart.CartRemovedWellFormed | ViewModels/GameViewModel.swift:999-1009 | removing keeps the cart well formed |
| Cart.DeleteKeepsWellFormed | ViewModels/GameViewModel.swift:1005 | deleting a line keeps the cart well formed |
| Cart.CartRemovedQuantity | ViewModels/GameViewModel.swift:999-1009 | an unknown identity leaves the cart as it was; otherwise that line's key loses exactly one unit and other keys keep theirs |
| Cart.CartTotalUpdate | ViewModels/GameViewModel.swift:1026-1033 | replacing one line changes the amount due by the difference between the two lines' prices |
| Cart.CartTotalAdded | ViewModels/GameViewModel.swift:985-996 | adding a known product raises the amount due by its price |
| Cart.CartTotalBumped | ViewModels/GameViewModel.swift:991 | one more unit on a product's line raises the amount due by its price |
| Cart.CartTotalAppended | ViewModels/GameViewModel.swift:993 | a new one-unit line for a product raises the amount due by its price |
| Session.Seconds | ViewModels/GameViewModel.swift:53-56 | the short, medium and long limits are 30, 60 and 90 seconds, so every limit lies between 30 and 90 |
| Session.StartMode | ViewModels/GameViewModel.swift:176-182 | a listening round starts only in English and falls back to shopping otherwise; in English, or for any other mode, the chosen mode is kept |
| Session.HighScoreKey | ViewModels/GameViewModel.swift:693-695 | the store key of a (mode, time limit) pair; `HighScoreKeyInjective` states that no two pairs share one |
| Session.StoredHighScore | ViewModels/GameViewModel.swift:707-715 | a pair's stored score, 0 when nothing is stored; `SavedHighScoreLoads` states it |
| Session.RecordScore | ViewModels/GameViewModel.swift:651-659 | the store after a round: the new score is saved when it beats the stored one; `RecordScoreKeepsBest` states it |
| Session.HighScoreKeyInjective | ViewModels/GameViewModel.swift:693-695 | different (mode, time limit) pairs get different store keys |
| Session.SavedHighScoreLoads | ViewModels/GameViewModel.swift:698-715 | loading a pair's score after saving it gives that score; every other pair reads as before |
| Session.RecordScoreKeepsBest | ViewModels/GameViewModel.swift:651-659 | after a round the pair holds the better of its old high score and the new score; other pairs keep theirs |
| Session.RecordScoreNeverLowers | ViewModels/GameViewModel.swift:651-659 | no stored high score ever goes down |
| Session.GameViewModel.constructor | ViewModels/GameViewModel.swift:75-166 | the initial state: first screen, shopping, fruit stand, Japanese, 60 seconds, shuffled fruit table, empty round, cart and payment, puppy at 80/80 with no poops |
| Session.GameViewModel.LoadProducts | ViewModels/GameViewModel.swift:362-376 | the products are the current shop's table, shuffled, six of them |
| Session.GameViewModel.GenerateNewOrder | ViewModels/GameViewModel.swift:379-403 | the inputs are cleared and the new order and mode are those of the round's draw |
| Session.GameViewModel.SetupGame | ViewModels/GameViewModel.swift:175-198 | a new round is playing with the clock running, no score or mistakes, the full time, fresh products, the chosen (or fallback) mode and its first order |
| Session.GameViewModel.BeginRound | ViewModels/GameViewModel.swift:193-197 | products are reloaded, the first order is posed and the clock starts |
| Session.GameViewModel.InvalidateTimer | ViewModels/GameViewModel.swift:332-335 | the timer is no longer scheduled |
| Session.GameViewModel.ClearInputs | ViewModels/GameViewModel.swift:187-189 | selection and both typed answers are empty |
| Session.GameViewModel.ResetCounters | ViewModels/GameViewModel.swift:184-185 | score and mistakes are zero |
| Session.GameViewModel.ResetRound | ViewModels/GameViewModel.swift:175-192 | the round's resets: playing, timer stopped, no overlay, zero score and mistakes, full time, the start mode, inputs cleared |
| Session.GameViewModel.ReturnToModeSelection | ViewModels/GameViewModel.swift:200-210 | back on the first screen with the timer stopped, no order, inputs cleared, score zero and no new-high-score flag |
| Session.GameViewModel.SetLanguage | ViewModels/GameViewModel.swift:107-115 | the language is set; switching to Japanese during a listening quiz returns to the first screen, and otherwise nothing else changes |
| Session.GameViewModel.GoToShopModeSelection | ViewModels/GameViewModel.swift:931-935 | the shop's mode selection is shown |
| Session.GameViewModel.StartAnimalCareMode | ViewModels/GameViewModel.swift:951-958 | the puppy's room is shown, the timer stopped, score and mistakes zero |
| Session.GameViewModel.SaveHighScore | ViewModels/GameViewModel.swift:698-704 | the pair's entry holds the score and every other pair reads as before |
| Session.GameViewModel.LoadHighScore | ViewModels/GameViewModel.swift:707-715 | the stored score of a pair in the view model's store; `SavedHighScoreLoads` states it |
| Session.GameViewModel.HandleTimeUp | ViewModels/GameViewModel.swift:643-664 | outside play nothing changes; otherwise the round ends in the result screen with the timer stopped, the high score saved and flagged exactly when beaten; no stored score goes down |
| Session.GameViewModel.TimerTick | ViewModels/GameViewModel.swift:338-350 | outside play the timer stops and nothing else changes; while playing a second is taken off, and at zero the round ends |
| Session.GameViewModel.ProductTapped | ViewModels/GameViewModel.swift:534-540 | outside play nothing changes; while playing the product's count in the selection rises by one |
| Session.GameViewModel.HandleCorrectSubmission | ViewModels/GameViewModel.swift:605-611 | the score rises by exactly one and correct feedback is shown |
| Session.GameViewModel.HandleIncorrectSubmission | ViewModels/GameViewModel.swift:624-629 | mistakes rise by exactly one and wrong feedback is shown |
| Session.GameViewModel.SubmitUserSelection | ViewModels/GameViewModel.swift:560-602 | with no order nothing changes; otherwise the verdict is the judge's, and exactly one of score and mistakes rises by one |
| Session.GameViewModel.CorrectFeedbackElapsed | ViewModels/GameViewModel.swift:613-620 | the overlay closes; while still playing the next order is posed |
| Session.GameViewModel.IncorrectFeedbackElapsed | ViewModels/GameViewModel.swift:631-639 | the overlay closes and inputs are cleared; from the third mistake the round ends, otherwise play goes on |
| Session.GameViewModel.ResetCustomerCartAndPayment | ViewModels/GameViewModel.swift:1050-1055 | the cart is empty and nothing is paid |
| Session.GameViewModel.GenerateShoppingListMission | ViewModels/GameViewModel.swift:961-983 | with fewer than two products the list is empty and the cart is kept; otherwise the list has two shuffled products with 1 or 2 each, and cart and payment are reset |
| Session.GameViewModel.StartCustomerMode | ViewModels/GameViewModel.swift:938-948 | customer play starts with the timer stopped, no score or mistakes, fresh products, a new two-line list and an empty cart |
| Session.GameViewModel.AddToCustomerCart | ViewModels/GameViewModel.swift:985-996 | the product's quantity rises by one, every other key's quantity is unchanged, and the amount due rises by the product's price |
| Session.GameViewModel.RemoveFromCustomerCart | ViewModels/GameViewModel.swift:999-1009 | an unknown line leaves the cart alone; otherwise its key loses one unit and every other key keeps its quantity |
| Session.GameViewModel.AddPayment | ViewModels/GameViewModel.swift:1011-1014 | the amount paid grows by the coin's value |
| Session.GameViewModel.ConfirmPayment | ViewModels/GameViewModel.swift:1016-1047 | the payment is right iff it equals the amount due for the cart; a right payment raises the score by one and marks success |
| Session.GameViewModel.PaymentFeedbackElapsed | ViewModels/GameViewModel.swift:1067-1071 | the overlay closes |
| Session.GameViewModel.IncorrectPaymentFeedbackElapsed | ViewModels/GameViewModel.swift:1082-1085 | the overlay closes and the payment starts again from zero |
| Session.GameViewModel.FeedPuppy | ViewModels/GameViewModel.swift:1090-1093 | hunger rises by 20 and happiness by 10, both capped at 100 and never lower than before |
| Session.GameViewModel.PlayWithPuppy | ViewModels/GameViewModel.swift:1109-1114 | happiness rises by 25 up to 100, hunger falls by 5 down to 0 |
| Session.GameViewModel.CleanPoops | ViewModels/GameViewModel.swift:1222-1244 | with nothing to clean nothing changes; otherwise no poops remain and happiness rises by 5 up to 100 |
| Session.GameViewModel.AddPoops | ViewModels/GameViewModel.swift:1212-1216 | new poops pile up to at most ten, and the count never goes down |
| ContentView.PadCellAt | ContentView.swift:463 | the twelve cells are the digits 1 to 9, a blank, 0 and a blank |
| ContentView.PadOffersDigits | ContentView.swift:463-469 | the pad offers every digit once and exactly two blank cells, which hold nothing |
| ContentView.PadTap | ContentView.swift:466-472 | one pad tap on a typed answer; `PadTapKeepsTypedAnswer` states its effect |
| ContentView.PadTapKeepsTypedAnswer | ContentView.swift:466-472 | a tap keeps the answer at most three digits: a blank cell or a full answer changes nothing, any other tap appends that digit |
| ContentView.PadTapsKeepTypedAnswer | ContentView.swift:466-472 | however the pad is tapped, the answer stays at most three digits and what was typed is kept |
| ContentView.NumberPadTapped | ContentView.swift:148-156 | the tap goes to the calculation answer in a calculation quiz and to the price answer in a price quiz |
| ContentView.FilledBelowCount | ContentView.swift:524 | among the first n hearts, the filled ones are those below the bound |
| ContentView.FilledHearts | ContentView.swift:524 | how many hearts are filled; `FilledHeartsCount` states the number |
| ContentView.FilledHeartsCount | ContentView.swift:524 | the filled hearts number `maxMistakes - mistakeCount`: all three with no mistakes, none from the third on |
| ContentView.ToggleSwaps | ContentView.swift:278 | the button only yields "ja" or "en", always changes the language and undoes itself |
| ContentView.ToggledLanguage | ContentView.swift:278 | the language the button switches to; `ToggleSwaps` states its properties |
| ContentView.LanguageButtonTapped | ContentView.swift:595 | the language switches; switching to Japanese during a listening quiz leaves it |
| ContentView.OfferedModesRule | ContentView.swift:365-375 | shopping, calculation and price are always offered; listening exactly in English |
| ContentView.OfferedModeStartsAsChosen | ContentView.swift:372 | an offered mode is the mode that starts |
| ContentView.OfferedModes | ContentView.swift:365-375 | the mode buttons shown for a language; `OfferedModesRule` states which |
| ContentView.ModeButtonTapped | ContentView.swift:389-390 | a mode button starts a round in exactly that mode with its first order |
| ContentView.ShopButtonTapped | ContentView.swift:325-329 | the shop is selected and its table is loaded, shuffled |

## Left out

- Audio and speech (`loadSounds`, `playSoundEffect`, `speakPrompt`) are calls into system frameworks with no game logic. They are not modelled.
- Scheduling is outside the model. The one-second timer and the delayed `asyncAfter` blocks of the rounds and of the payment are methods the environment calls. `timerRunning` only records whether the timer is scheduled.
- The puppy animations are not modelled: the delayed `asyncAfter` blocks of `feedPuppy`, `playWithPuppy` and `cleanPoops` (ViewModels/GameViewModel.swift:1100, 1123 and 1235) only reset animation flags, and those flags are not modelled either.
- Randomness is outside the model. `shuffled()`, `randomElement()` and `Int.random` are parameters constrained to the source's ranges: an index permutation and the `Draw` value.
- `selectRandomCustomer` and the customer picture are not modelled. The same goes for `tappedProductKey` and its 0.2-second reset, and for `customerSubMode`.
- `resetGame` (ViewModels/GameViewModel.swift:213-216) is called when the first screen appears (ContentView.swift:602). It does nothing but call `returnToModeSelection`, which is modelled as `Session.GameViewModel.ReturnToModeSelection`. The appearance trigger itself is not modelled.
- The mode-selection screen calls `loadProducts` each time it appears (ContentView.swift:285-287), so the table is reshuffled before each mode choice. `Session.GameViewModel.LoadProducts` models that call; the appearance trigger is not modelled.
- The user-defaults store is a `map<string, int>` of high scores. The saved date next to each score and `loadClearedDates` are not modelled. Neither are `saveClearedDate`, `loadScoresByDate` and a stored entry of the wrong shape (which `loadHighScore` reads as 0).
- Time-based puppy behaviour is not modelled: `updatePuppyStatus`, the interval arithmetic of `calculatePoops`, `checkPuppyMissing` and the time-of-day timer. So are the puppy's name, the adoption date and the last-interaction date. `AddPoops` takes the number of new poops as a parameter and models only the cap at ten.
- Hunger and happiness are `Double` in the source. Every modelled change moves them by whole steps, so they are integers here.
- `remainingTime` is a `Double` in the source and whole seconds here.
- Display text is not modelled: the order texts, the selection text, the localized labels other than the shop names, and the pluralisation rules.
- The views other than the main screen's pad, hearts, language button, mode buttons and shop buttons are presentation. They are not modelled.
- Swift `Int` overflow is not modelled. Integers are unbounded, and every quantity and price in the game is small.
- The product and order UUIDs are not modelled. A cart line gets an explicit `id` from a counter, because removal matches lines by identity.
- Several invariants are carried by field types:
  - the language is "ja" or "en";
  - the typed answers are at most three digits;
  - the loaded products are a non-empty table with distinct keys, no answer keys and well-formed prices;
  - the cart is well formed;
  - the puppy's stats stay in range.

  In the source these hold only because every writer keeps them. In the model, any write that breaks them is rejected.
- Session.GameViewModel.SetupGame: does not model the order of `invalidateTimer` and `startTimer` within the call, only that the clock runs afterwards.
