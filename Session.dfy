/**
 * The game session held by `GameViewModel`: the screen state, the score and
 * mistakes of a round of play, the countdown, the per-mode high scores kept in
 * the user defaults, the customer-mode cart and payment, and the puppy's
 * stats. Every `DispatchQueue.main.asyncAfter` callback and every tick of the
 * one-second timer is a method of its own, which the environment calls.
 */
module Session {
  import opened Wrappers
  import opened GameData
  import opened Quiz
  import opened Cart

  datatype GameState = InitialSelection | ModeSelection | Playing | PlayingCustomer | AnimalCare | Result

  datatype TimeLimitOption = Short | Medium | Long

  /** The option's raw value, in whole seconds. */
  function Seconds(limit: TimeLimitOption): (seconds: int)
    ensures 30 <= seconds <= 90
    ensures limit == Short ==> seconds == 30
    ensures limit == Medium ==> seconds == 60
    ensures limit == Long ==> seconds == 90
  {
    match limit
    case Short => 30
    case Medium => 60
    case Long => 90
  }

  /** Three mistakes end a round. */
  const MaxMistakes: int := 3

  const MaxStat: int := 100
  const MaxPoops: int := 10

  /** Listening quizzes are English only: asked for in Japanese, a shopping round starts instead. */
  function StartMode(mode: GameMode, language: string): (m: GameMode)
    ensures m == ListeningQuiz ==> language == "en"
    ensures language == "en" ==> m == mode
    ensures mode != ListeningQuiz ==> m == mode
    ensures mode == ListeningQuiz && language != "en" ==> m == Shopping
  {
    if mode == ListeningQuiz && language != "en" then Shopping else mode
  }

  // ---------------------------------------------------------------------
  // High scores, one entry per mode and time limit
  // ---------------------------------------------------------------------

  const HighScoresKey: string := "highScores"

  /** How Swift interpolates the mode's case name into a string. */
  function ModeName(mode: GameMode): string
  {
    match mode
    case Shopping => "shopping"
    case CalculationQuiz => "calculationQuiz"
    case PriceQuiz => "priceQuiz"
    case ListeningQuiz => "listeningQuiz"
  }

  /** How Swift interpolates the option's `Double` raw value into a string. */
  function LimitText(limit: TimeLimitOption): string
  {
    match limit
    case Short => "30.0"
    case Medium => "60.0"
    case Long => "90.0"
  }

  function HighScoreKey(mode: GameMode, limit: TimeLimitOption): string
  {
    HighScoresKey + "_" + ModeName(mode) + "_" + LimitText(limit)
  }

  /** Different (mode, time limit) pairs are stored under different keys. */
  lemma HighScoreKeyInjective(m1: GameMode, t1: TimeLimitOption, m2: GameMode, t2: TimeLimitOption)
    requires HighScoreKey(m1, t1) == HighScoreKey(m2, t2)
    ensures m1 == m2 && t1 == t2
  {
    var p1 := HighScoresKey + "_" + ModeName(m1) + "_";
    var p2 := HighScoresKey + "_" + ModeName(m2) + "_";
    assert HighScoreKey(m1, t1) == p1 + LimitText(t1) && HighScoreKey(m2, t2) == p2 + LimitText(t2);
    assert |LimitText(t1)| == 4 && |LimitText(t2)| == 4;
    assert |ModeName(m1)| == |ModeName(m2)|;
    assert (p1 + LimitText(t1))[|p1|] == LimitText(t1)[0];
    assert (p2 + LimitText(t2))[|p2|] == LimitText(t2)[0];
  }

  /** `loadHighScore`: the stored score for the pair, or 0 when nothing is stored. */
  function StoredHighScore(store: map<string, int>, mode: GameMode, limit: TimeLimitOption): int
  {
    var key := HighScoreKey(mode, limit);
    if key in store then store[key] else 0
  }

  /** Saving one pair's score and loading it back gives that score; every other pair reads as before. */
  lemma SavedHighScoreLoads(store: map<string, int>, mode: GameMode, limit: TimeLimitOption, score: int,
                            m: GameMode, t: TimeLimitOption)
    ensures StoredHighScore(store[HighScoreKey(mode, limit) := score], m, t) ==
            if m == mode && t == limit then score else StoredHighScore(store, m, t)
  {
    if HighScoreKey(m, t) == HighScoreKey(mode, limit) {
      HighScoreKeyInjective(m, t, mode, limit);
    }
  }

  /** The end-of-round bookkeeping: the score is saved only when it beats the stored one. */
  function RecordScore(store: map<string, int>, mode: GameMode, limit: TimeLimitOption, score: int): map<string, int>
  {
    if score > StoredHighScore(store, mode, limit) then store[HighScoreKey(mode, limit) := score] else store
  }

  /** After recording, the pair holds the better of the old high score and the new score; other pairs keep theirs. */
  lemma RecordScoreKeepsBest(store: map<string, int>, mode: GameMode, limit: TimeLimitOption, score: int,
                             m: GameMode, t: TimeLimitOption)
    ensures StoredHighScore(RecordScore(store, mode, limit, score), m, t) ==
            if m == mode && t == limit then Max(StoredHighScore(store, m, t), score) else StoredHighScore(store, m, t)
  {
    if score > StoredHighScore(store, mode, limit) {
      SavedHighScoreLoads(store, mode, limit, score, m, t);
    }
  }

  /** No stored high score ever goes down. */
  lemma RecordScoreNeverLowers(store: map<string, int>, mode: GameMode, limit: TimeLimitOption, score: int)
    ensures forall m, t :: StoredHighScore(RecordScore(store, mode, limit, score), m, t) >= StoredHighScore(store, m, t)
  {
    forall m, t ensures StoredHighScore(RecordScore(store, mode, limit, score), m, t) >= StoredHighScore(store, m, t) {
      RecordScoreKeepsBest(store, mode, limit, score, m, t);
    }
  }

  /** Hunger and happiness lie in [0, 100]. */
  type Stat = x: int | 0 <= x <= MaxStat

  /** At most ten poops pile up. */
  type PoopCount = x: int | 0 <= x <= MaxPoops

  /** The game speaks Japanese or English. */
  type LanguageCode = s: string | s == "ja" || s == "en" witness "ja"

  /** What the number pad can produce. */
  type TypedInput = s: string | TypedAnswer(s)

  /** A loaded product table: non-empty, distinct keys, none of them an answer key, sensible prices. */
  type ProductList = p: seq<Product> | 1 <= |p| && DistinctKeys(p) && NoSentinelKeys(p) && WellPriced(p)
    witness [Product("apple", "りんご", "Apple", "apple", "red", 100)]

  /** Keys and identities unique, every line at least one unit. */
  type WellFormedCart = c: seq<CartEntry> | CartWellFormed(c)

  // ---------------------------------------------------------------------
  // The view model
  // ---------------------------------------------------------------------

  class GameViewModel {
    var currentGameMode: GameMode
    var currentShopType: ShopType
    var currentLanguage: LanguageCode
    var gameState: GameState
    var selectedTimeLimitOption: TimeLimitOption
    var products: ProductList
    var currentOrder: Option<Order>
    var userSelection: map<string, int>
    var calculationInput: TypedInput
    var priceInput: TypedInput
    var currentScore: nat
    var mistakeCount: nat
    /** Whole seconds left in the round. */
    var remainingTime: int
    /** Whether the one-second timer is scheduled. */
    var timerRunning: bool
    var showFeedbackOverlay: bool
    var feedbackIsCorrect: bool
    var isNewHighScore: bool
    /** The user-defaults entries written by `saveHighScore`, by key. */
    var highScores: map<string, int>
    var currentShoppingList: Option<seq<OrderItem>>
    var customerCart: WellFormedCart
    /** The identity the next new cart line receives. */
    var nextItemId: nat
    var paymentAmount: int
    var paymentSuccessful: bool
    var puppyHunger: Stat
    var puppyHappiness: Stat
    var poopCount: PoopCount

    /** Every identity in the cart was issued before `nextItemId`. */
    ghost predicate CartIdsIssued()
      reads this`customerCart, this`nextItemId
    {
      IdsBelow(customerCart, nextItemId)
    }

    /** A listening quiz is only ever played in English. */
    ghost predicate ListeningInEnglish()
      reads this`gameState, this`currentGameMode, this`currentLanguage
    {
      gameState == Playing && currentGameMode == ListeningQuiz ==> currentLanguage == "en"
    }

    /** While playing there is time left. */
    ghost predicate ClockRunning()
      reads this`gameState, this`remainingTime
    {
      gameState == Playing ==> remainingTime > 0
    }

    ghost predicate Valid()
      reads this`customerCart, this`nextItemId, this`gameState, this`currentGameMode, this`currentLanguage,
            this`remainingTime
    {
      CartIdsIssued() && ListeningInEnglish() && ClockRunning()
    }

    /** The end of a round, measured against the high scores stored before it. */
    ghost predicate EndedWith(previous: map<string, int>)
      reads this`gameState, this`timerRunning, this`isNewHighScore, this`currentScore, this`currentGameMode,
            this`selectedTimeLimitOption, this`highScores
    {
      gameState == Result && !timerRunning &&
      isNewHighScore == (currentScore > StoredHighScore(previous, currentGameMode, selectedTimeLimitOption)) &&
      highScores == RecordScore(previous, currentGameMode, selectedTimeLimitOption, currentScore)
    }

    /** `init`: fruit stand, Japanese, 60 seconds, products loaded in the shuffled order `perm`. */
    constructor(perm: seq<nat>, store: map<string, int>)
      requires IsPermutation(perm, |FruitProducts|)
      ensures Valid()
      ensures gameState == InitialSelection && currentGameMode == Shopping && currentShopType == FruitStand
      ensures currentLanguage == "ja" && selectedTimeLimitOption == Medium && remainingTime == 60
      ensures products == Permute(FruitProducts, perm)
      ensures currentOrder == None && userSelection == map[] && calculationInput == "" && priceInput == ""
      ensures currentScore == 0 && mistakeCount == 0 && !timerRunning && !showFeedbackOverlay && !isNewHighScore
      ensures highScores == store
      ensures currentShoppingList == None && customerCart == [] && paymentAmount == 0 && !paymentSuccessful
      ensures puppyHunger == 80 && puppyHappiness == 80 && poopCount == 0
    {
      FruitTableWellFormed();
      PermutePreserves(FruitProducts, perm);
      currentGameMode := Shopping;
      currentShopType := FruitStand;
      currentLanguage := "ja";
      gameState := InitialSelection;
      selectedTimeLimitOption := Medium;
      products := Permute(FruitProducts, perm);
      currentOrder := None;
      userSelection := map[];
      calculationInput := "";
      priceInput := "";
      currentScore := 0;
      mistakeCount := 0;
      remainingTime := Seconds(Medium);
      timerRunning := false;
      showFeedbackOverlay := false;
      feedbackIsCorrect := true;
      isNewHighScore := false;
      highScores := store;
      currentShoppingList := None;
      customerCart := [];
      nextItemId := 0;
      paymentAmount := 0;
      paymentSuccessful := false;
      puppyHunger := 80;
      puppyHappiness := 80;
      poopCount := 0;
    }

    /** `loadProducts`: the current shop's table, shuffled by `perm`. */
    method LoadProducts(perm: seq<nat>)
      requires IsPermutation(perm, |ProductsFor(currentShopType)|)
      modifies this`products
      ensures products == Permute(ProductsFor(currentShopType), perm)
      ensures |products| == |ProductsFor(currentShopType)| == 6
    {
      var table := ProductsFor(currentShopType);
      ShippedTablesWellFormed(currentShopType);
      ShippedTablesHaveNoSentinels(currentShopType);
      PermutePreserves(table, perm);
      products := Permute(table, perm);
      forall i | 0 <= i < |products| ensures !IsSentinel(products[i].key) {
        assert products[i] == table[perm[i]];
      }
    }

    /** `generateNewOrder`: clears the inputs and poses the round's order, falling back to shopping when a quiz cannot be built. */
    method GenerateNewOrder(d: Draw)
      requires Valid()
      requires DrawOk(currentGameMode, currentScore, |products|, d)
      modifies this`userSelection, this`calculationInput, this`priceInput, this`currentOrder, this`currentGameMode
      ensures Valid()
      ensures userSelection == map[] && calculationInput == "" && priceInput == ""
      ensures currentGameMode == RoundMode(old(currentGameMode), currentScore, |products|, d)
      ensures currentOrder == Some(RoundOrder(old(currentGameMode), currentScore, products, d))
    {
      var order, nextMode := NewRoundOrder(currentGameMode, currentScore, products, d);
      ClearInputs();
      currentGameMode := nextMode;
      currentOrder := Some(order);
    }

    /** `setupGame`: a fresh round in the chosen mode with the full time on the clock. */
    method SetupGame(mode: GameMode, perm: seq<nat>, d: Draw)
      requires Valid()
      requires IsPermutation(perm, |ProductsFor(currentShopType)|)
      requires DrawOk(StartMode(mode, currentLanguage), 0, |ProductsFor(currentShopType)|, d)
      modifies this`currentGameMode, this`currentScore, this`mistakeCount, this`gameState, this`userSelection,
               this`calculationInput, this`priceInput, this`showFeedbackOverlay, this`remainingTime,
               this`timerRunning, this`products, this`currentOrder
      ensures Valid()
      ensures gameState == Playing && timerRunning && !showFeedbackOverlay
      ensures currentScore == 0 && mistakeCount == 0
      ensures remainingTime == Seconds(selectedTimeLimitOption)
      ensures products == Permute(ProductsFor(currentShopType), perm)
      ensures currentGameMode == StartMode(mode, currentLanguage)
      ensures DrawOk(currentGameMode, 0, |products|, d)
      ensures currentOrder == Some(RoundOrder(currentGameMode, 0, products, d))
      ensures userSelection == map[] && calculationInput == "" && priceInput == ""
    {
      ResetRound(mode);
      BeginRound(perm, d);
    }

    /** The second half of `setupGame`: load the products, pose the first order and start the clock. */
    method BeginRound(perm: seq<nat>, d: Draw)
      requires Valid() && gameState == Playing && currentScore == 0
      requires IsPermutation(perm, |ProductsFor(currentShopType)|)
      requires DrawOk(currentGameMode, 0, |ProductsFor(currentShopType)|, d)
      modifies this`products, this`userSelection, this`calculationInput, this`priceInput, this`currentOrder,
               this`currentGameMode, this`timerRunning
      ensures Valid() && timerRunning
      ensures products == Permute(ProductsFor(currentShopType), perm)
      ensures currentGameMode == old(currentGameMode)
      ensures DrawOk(currentGameMode, 0, |products|, d)
      ensures currentOrder == Some(RoundOrder(currentGameMode, 0, products, d))
      ensures userSelection == map[] && calculationInput == "" && priceInput == ""
    {
      LoadProducts(perm);
      ShippedTablesNeverFallBack(currentGameMode, 0, d);
      GenerateNewOrder(d);
      timerRunning := true;
    }

    /** `invalidateTimer`: the one-second timer is no longer scheduled. */
    method InvalidateTimer()
      modifies this`timerRunning
      ensures !timerRunning
    {
      timerRunning := false;
    }

    /** The selection and both typed answers are cleared together wherever a round is (re)started. */
    method ClearInputs()
      modifies this`userSelection, this`calculationInput, this`priceInput
      ensures userSelection == map[] && calculationInput == "" && priceInput == ""
    {
      userSelection := map[];
      calculationInput := "";
      priceInput := "";
    }

    /** A new round starts with no points and no mistakes. */
    method ResetCounters()
      modifies this`currentScore, this`mistakeCount
      ensures currentScore == 0 && mistakeCount == 0
    {
      currentScore := 0;
      mistakeCount := 0;
    }

    /** The resets `setupGame` performs before loading products and posing the first order. */
    method ResetRound(mode: GameMode)
      requires Valid()
      modifies this`currentGameMode, this`currentScore, this`mistakeCount, this`gameState, this`userSelection,
               this`calculationInput, this`priceInput, this`showFeedbackOverlay, this`remainingTime, this`timerRunning
      ensures Valid()
      ensures gameState == Playing && !timerRunning && !showFeedbackOverlay
      ensures currentScore == 0 && mistakeCount == 0
      ensures remainingTime == Seconds(selectedTimeLimitOption)
      ensures currentGameMode == StartMode(mode, currentLanguage)
      ensures userSelection == map[] && calculationInput == "" && priceInput == ""
    {
      currentGameMode := StartMode(mode, currentLanguage);
      ResetCounters();
      gameState := Playing;
      ClearInputs();
      showFeedbackOverlay := false;
      remainingTime := Seconds(selectedTimeLimitOption);
      InvalidateTimer();
    }

    /** `returnToModeSelection`: stop the clock and clear the round. */
    method ReturnToModeSelection()
      requires CartIdsIssued()
      modifies this`timerRunning, this`gameState, this`currentOrder, this`userSelection, this`calculationInput,
               this`priceInput, this`currentScore, this`isNewHighScore
      ensures Valid()
      ensures !timerRunning && gameState == InitialSelection && currentOrder == None
      ensures userSelection == map[] && calculationInput == "" && priceInput == ""
      ensures currentScore == 0 && !isNewHighScore
    {
      InvalidateTimer();
      gameState := InitialSelection;
      currentOrder := None;
      ClearInputs();
      currentScore := 0;
      isNewHighScore := false;
    }

    /** The `currentLanguage` setter: switching to Japanese leaves a listening quiz. */
    method SetLanguage(language: LanguageCode)
      requires Valid()
      modifies this`currentLanguage, this`timerRunning, this`gameState, this`currentOrder, this`userSelection,
               this`calculationInput, this`priceInput, this`currentScore, this`isNewHighScore
      ensures Valid()
      ensures currentLanguage == language
      ensures language == "ja" && currentGameMode == ListeningQuiz ==>
        !timerRunning && gameState == InitialSelection && currentOrder == None && currentScore == 0 && !isNewHighScore &&
        userSelection == map[] && calculationInput == "" && priceInput == ""
      ensures !(language == "ja" && currentGameMode == ListeningQuiz) ==>
        timerRunning == old(timerRunning) && gameState == old(gameState) && currentOrder == old(currentOrder) &&
        currentScore == old(currentScore) && isNewHighScore == old(isNewHighScore) &&
        userSelection == old(userSelection) && calculationInput == old(calculationInput) && priceInput == old(priceInput)
    {
      currentLanguage := language;
      if currentLanguage == "ja" && currentGameMode == ListeningQuiz {
        ReturnToModeSelection();
      }
    }

    method GoToShopModeSelection()
      requires Valid()
      modifies this`gameState
      ensures Valid()
      ensures gameState == ModeSelection
    {
      gameState := ModeSelection;
    }

    method StartAnimalCareMode()
      requires Valid()
      modifies this`gameState, this`timerRunning, this`currentScore, this`mistakeCount
      ensures Valid()
      ensures gameState == AnimalCare && !timerRunning && currentScore == 0 && mistakeCount == 0
    {
      gameState := AnimalCare;
      timerRunning := false;
      currentScore := 0;
      mistakeCount := 0;
    }

    // --- The clock and the end of a round ---

    /** `loadHighScore` for the current store. */
    function LoadHighScore(mode: GameMode, limit: TimeLimitOption): int
      reads this
    {
      StoredHighScore(highScores, mode, limit)
    }

    /** `saveHighScore`: the pair now loads as `score`; no other pair's score changes. */
    method SaveHighScore(score: int, mode: GameMode, limit: TimeLimitOption)
      modifies this`highScores
      ensures highScores == old(highScores)[HighScoreKey(mode, limit) := score]
      ensures StoredHighScore(highScores, mode, limit) == score
      ensures forall m, t :: (m != mode || t != limit) ==> StoredHighScore(highScores, m, t) == StoredHighScore(old(highScores), m, t)
    {
      highScores := highScores[HighScoreKey(mode, limit) := score];
      forall m, t | m != mode || t != limit
        ensures StoredHighScore(highScores, m, t) == StoredHighScore(old(highScores), m, t)
      {
        SavedHighScoreLoads(old(highScores), mode, limit, score, m, t);
      }
    }

    /** `handleTimeUp`: outside play nothing happens; otherwise the round ends and a better score is saved. */
    method HandleTimeUp()
      requires CartIdsIssued() && ListeningInEnglish()
      modifies this`gameState, this`timerRunning, this`isNewHighScore, this`highScores
      ensures Valid()
      ensures old(gameState) != Playing ==> unchanged(this)
      ensures old(gameState) == Playing ==> EndedWith(old(highScores))
      ensures forall m, t :: StoredHighScore(highScores, m, t) >= StoredHighScore(old(highScores), m, t)
    {
      RecordScoreNeverLowers(highScores, currentGameMode, selectedTimeLimitOption, currentScore);
      if gameState != Playing {
        return;
      }
      timerRunning := false;
      gameState := Result;
      var previousHighScore := LoadHighScore(currentGameMode, selectedTimeLimitOption);
      if currentScore > previousHighScore {
        isNewHighScore := true;
        SaveHighScore(currentScore, currentGameMode, selectedTimeLimitOption);
      } else {
        isNewHighScore := false;
      }
    }

    /** `timerTick`: one second off the clock while playing; at zero the round ends. */
    method TimerTick()
      requires Valid()
      modifies this`remainingTime, this`timerRunning, this`gameState, this`isNewHighScore, this`highScores
      ensures Valid()
      ensures old(gameState) != Playing ==>
        !timerRunning && remainingTime == old(remainingTime) && gameState == old(gameState) &&
        isNewHighScore == old(isNewHighScore) && highScores == old(highScores)
      ensures old(gameState) == Playing ==> remainingTime == old(remainingTime) - 1
      ensures old(gameState) == Playing && remainingTime > 0 ==>
        gameState == Playing && timerRunning == old(timerRunning) &&
        isNewHighScore == old(isNewHighScore) && highScores == old(highScores)
      ensures old(gameState) == Playing && remainingTime <= 0 ==> EndedWith(old(highScores))
    {
      if gameState != Playing {
        timerRunning := false;
        return;
      }
      remainingTime := remainingTime - 1;
      if remainingTime <= 0 {
        HandleTimeUp();
      }
    }

    // --- Answering ---

    /** `productTapped`: while playing, one more of the product in the selection. */
    method ProductTapped(product: Product)
      requires Valid()
      modifies this`userSelection
      ensures Valid()
      ensures old(gameState) != Playing ==> unchanged(this)
      ensures old(gameState) == Playing ==>
        userSelection == old(userSelection)[product.key := SelectedCount(old(userSelection), product.key) + 1]
    {
      if gameState != Playing {
        return;
      }
      var currentCount := SelectedCount(userSelection, product.key);
      userSelection := userSelection[product.key := currentCount + 1];
    }

    method HandleCorrectSubmission()
      requires Valid()
      modifies this`currentScore, this`feedbackIsCorrect, this`showFeedbackOverlay
      ensures Valid()
      ensures currentScore == old(currentScore) + 1 && feedbackIsCorrect && showFeedbackOverlay
    {
      currentScore := currentScore + 1;
      feedbackIsCorrect := true;
      showFeedbackOverlay := true;
    }

    method HandleIncorrectSubmission()
      requires Valid()
      modifies this`mistakeCount, this`feedbackIsCorrect, this`showFeedbackOverlay
      ensures Valid()
      ensures mistakeCount == old(mistakeCount) + 1 && !feedbackIsCorrect && showFeedbackOverlay
    {
      mistakeCount := mistakeCount + 1;
      feedbackIsCorrect := false;
      showFeedbackOverlay := true;
    }

    /** `submitUserSelection`: with an order posed, a right answer scores one and a wrong one costs a heart. */
    method SubmitUserSelection()
      requires Valid()
      modifies this`currentScore, this`mistakeCount, this`feedbackIsCorrect, this`showFeedbackOverlay
      ensures Valid()
      ensures currentOrder.None? ==> unchanged(this)
      ensures currentOrder.Some? ==>
        var correct := IsCorrectSubmission(currentGameMode, currentOrder.value, userSelection,
                                           calculationInput, priceInput, products);
        feedbackIsCorrect == correct && showFeedbackOverlay &&
        currentScore == old(currentScore) + (if correct then 1 else 0) &&
        mistakeCount == old(mistakeCount) + (if correct then 0 else 1)
    {
      if currentOrder.None? {
        return;
      }
      var isCorrect := IsCorrectSubmission(currentGameMode, currentOrder.value, userSelection,
                                           calculationInput, priceInput, products);
      if isCorrect {
        HandleCorrectSubmission();
      } else {
        HandleIncorrectSubmission();
      }
    }

    /** The callback one second after a right answer: hide the overlay and, still playing, pose the next order. */
    method CorrectFeedbackElapsed(d: Draw)
      requires Valid()
      requires gameState == Playing ==> DrawOk(currentGameMode, currentScore, |products|, d)
      modifies this`showFeedbackOverlay, this`userSelection, this`calculationInput, this`priceInput,
               this`currentOrder, this`currentGameMode
      ensures Valid()
      ensures !showFeedbackOverlay
      ensures gameState == Playing ==>
        currentGameMode == RoundMode(old(currentGameMode), currentScore, |products|, d) &&
        currentOrder == Some(RoundOrder(old(currentGameMode), currentScore, products, d)) &&
        userSelection == map[] && calculationInput == "" && priceInput == ""
      ensures gameState != Playing ==>
        currentGameMode == old(currentGameMode) && currentOrder == old(currentOrder) &&
        userSelection == old(userSelection) && calculationInput == old(calculationInput) && priceInput == old(priceInput)
    {
      showFeedbackOverlay := false;
      if gameState == Playing {
        GenerateNewOrder(d);
      }
    }

    /** The callback one second after a wrong answer: clear the inputs; the third mistake ends the round. */
    method IncorrectFeedbackElapsed()
      requires Valid()
      modifies this`showFeedbackOverlay, this`userSelection, this`calculationInput, this`priceInput,
               this`gameState, this`timerRunning, this`isNewHighScore, this`highScores
      ensures Valid()
      ensures !showFeedbackOverlay && userSelection == map[] && calculationInput == "" && priceInput == ""
      ensures mistakeCount >= MaxMistakes && old(gameState) == Playing ==> EndedWith(old(highScores))
      ensures mistakeCount < MaxMistakes || old(gameState) != Playing ==>
        gameState == old(gameState) && timerRunning == old(timerRunning) &&
        isNewHighScore == old(isNewHighScore) && highScores == old(highScores)
    {
      showFeedbackOverlay := false;
      ClearInputs();
      if mistakeCount >= MaxMistakes {
        HandleTimeUp();
      }
    }

    // --- Customer mode ---

    method ResetCustomerCartAndPayment()
      requires Valid()
      modifies this`customerCart, this`paymentAmount, this`paymentSuccessful
      ensures Valid()
      ensures customerCart == [] && paymentAmount == 0 && !paymentSuccessful
    {
      customerCart := [];
      paymentAmount := 0;
      paymentSuccessful := false;
    }

    /** `generateShoppingListMission`: two shuffled products with 1 or 2 of each, and an empty cart. */
    method GenerateShoppingListMission(perm: seq<nat>, quantities: seq<int>)
      requires Valid()
      requires IsPermutation(perm, |products|)
      requires |products| >= 2 ==> |quantities| == 2 && QuantitiesWithin(quantities, 2)
      modifies this`currentShoppingList, this`customerCart, this`paymentAmount, this`paymentSuccessful
      ensures Valid()
      ensures |products| < 2 ==>
        currentShoppingList == Some([]) && customerCart == old(customerCart) &&
        paymentAmount == old(paymentAmount) && paymentSuccessful == old(paymentSuccessful)
      ensures |products| >= 2 ==>
        currentShoppingList == Some(ProductLines(products, perm, quantities, 2)) &&
        customerCart == [] && paymentAmount == 0 && !paymentSuccessful
    {
      if |products| < 2 {
        currentShoppingList := Some([]);
        return;
      }
      var shuffled := Permute(products, perm);
      currentShoppingList := Some([OrderItem(shuffled[0].key, quantities[0]), OrderItem(shuffled[1].key, quantities[1])]);
      assert currentShoppingList.value == ProductLines(products, perm, quantities, 2);
      ResetCustomerCartAndPayment();
    }

    /** `startCustomerMode`: stop the clock, reload the products and set the first mission. */
    method StartCustomerMode(perm: seq<nat>, missionPerm: seq<nat>, quantities: seq<int>)
      requires Valid()
      requires IsPermutation(perm, |ProductsFor(currentShopType)|)
      requires IsPermutation(missionPerm, |ProductsFor(currentShopType)|)
      requires |quantities| == 2 && QuantitiesWithin(quantities, 2)
      modifies this`gameState, this`timerRunning, this`currentScore, this`mistakeCount, this`products,
               this`currentShoppingList, this`customerCart, this`paymentAmount, this`paymentSuccessful
      ensures Valid()
      ensures gameState == PlayingCustomer && !timerRunning && currentScore == 0 && mistakeCount == 0
      ensures products == Permute(ProductsFor(currentShopType), perm)
      ensures currentShoppingList == Some(ProductLines(products, missionPerm, quantities, 2))
      ensures customerCart == [] && paymentAmount == 0 && !paymentSuccessful
    {
      gameState := PlayingCustomer;
      timerRunning := false;
      currentScore := 0;
      mistakeCount := 0;
      LoadProducts(perm);
      GenerateShoppingListMission(missionPerm, quantities);
    }

    /** `addToCustomerCart`: one more of the product's line, or a new line of one. */
    method AddToCustomerCart(product: Product)
      requires Valid()
      modifies this`customerCart, this`nextItemId
      ensures Valid()
      ensures customerCart == CartAdded(old(customerCart), product.key, old(nextItemId))
      ensures nextItemId == if IndexOfKey(old(customerCart), product.key).None? then old(nextItemId) + 1 else old(nextItemId)
      ensures forall k :: QuantityOf(customerCart, k) == QuantityOf(old(customerCart), k) + (if k == product.key then 1 else 0)
      ensures FindProduct(products, product.key) == Some(product) ==>
        CartTotal(customerCart, products) == CartTotal(old(customerCart), products) + product.price
    {
      CartAddedWellFormed(customerCart, product.key, nextItemId);
      CartAddedQuantities(customerCart, product.key, nextItemId);
      if FindProduct(products, product.key) == Some(product) {
        CartTotalAdded(customerCart, product, nextItemId, products);
      }
      var appended := IndexOfKey(customerCart, product.key).None?;
      customerCart := CartAdded(customerCart, product.key, nextItemId);
      if appended {
        nextItemId := nextItemId + 1;
      }
    }

    /** `removeFromCustomerCart`: one less of the line with that identity; a line of one disappears. */
    method RemoveFromCustomerCart(itemToRemove: CartEntry)
      requires Valid()
      modifies this`customerCart
      ensures Valid()
      ensures customerCart == CartRemoved(old(customerCart), itemToRemove.id)
      ensures IndexOfId(old(customerCart), itemToRemove.id).None? ==> customerCart == old(customerCart)
      ensures IndexOfId(old(customerCart), itemToRemove.id).Some? ==>
        forall k :: QuantityOf(customerCart, k) == QuantityOf(old(customerCart), k) -
          (if old(customerCart)[IndexOfId(old(customerCart), itemToRemove.id).value].productKey == k then 1 else 0)
    {
      CartRemovedWellFormed(customerCart, itemToRemove.id, nextItemId);
      forall k ensures IndexOfId(customerCart, itemToRemove.id).Some? ==>
        QuantityOf(CartRemoved(customerCart, itemToRemove.id), k) == QuantityOf(customerCart, k) -
          (if customerCart[IndexOfId(customerCart, itemToRemove.id).value].productKey == k then 1 else 0) {
        CartRemovedQuantity(customerCart, itemToRemove.id, k);
      }
      match IndexOfId(customerCart, itemToRemove.id)
      case Some(index) =>
        if customerCart[index].quantity > 1 {
          customerCart := customerCart[index := customerCart[index].(quantity := customerCart[index].quantity - 1)];
        } else {
          customerCart := customerCart[..index] + customerCart[index + 1..];
        }
      case None =>
    }

    method AddPayment(amount: int)
      requires Valid()
      modifies this`paymentAmount
      ensures Valid()
      ensures paymentAmount == old(paymentAmount) + amount
    {
      paymentAmount := paymentAmount + amount;
    }

    /** `confirmPayment`: right exactly when the payment equals the cart's total. */
    method ConfirmPayment()
      requires Valid()
      modifies this`paymentSuccessful, this`feedbackIsCorrect, this`showFeedbackOverlay, this`currentScore
      ensures Valid()
      ensures var correct := paymentAmount == CartTotal(customerCart, products);
        feedbackIsCorrect == correct && showFeedbackOverlay &&
        paymentSuccessful == (old(paymentSuccessful) || correct) &&
        currentScore == old(currentScore) + (if correct then 1 else 0)
    {
      var correctTotal := CartTotal(customerCart, products);
      if paymentAmount == correctTotal {
        paymentSuccessful := true;
        feedbackIsCorrect := true;
        showFeedbackOverlay := true;
        currentScore := currentScore + 1;
      } else {
        feedbackIsCorrect := false;
        showFeedbackOverlay := true;
      }
    }

    /** The callback one second after a right payment. */
    method PaymentFeedbackElapsed()
      requires Valid()
      modifies this`showFeedbackOverlay
      ensures Valid()
      ensures !showFeedbackOverlay
    {
      showFeedbackOverlay := false;
    }

    /** The callback one second after a wrong payment: the money goes back. */
    method IncorrectPaymentFeedbackElapsed()
      requires Valid()
      modifies this`showFeedbackOverlay, this`paymentAmount
      ensures Valid()
      ensures !showFeedbackOverlay && paymentAmount == 0
    {
      showFeedbackOverlay := false;
      paymentAmount := 0;
    }

    // --- The puppy ---

    /** `feedPuppy`: fuller by 20 and happier by 10, both capped at 100. */
    method FeedPuppy()
      requires Valid()
      modifies this`puppyHunger, this`puppyHappiness
      ensures Valid()
      ensures puppyHunger == Min(old(puppyHunger) + 20, MaxStat)
      ensures puppyHappiness == Min(old(puppyHappiness) + 10, MaxStat)
      ensures puppyHunger >= old(puppyHunger) && puppyHappiness >= old(puppyHappiness)
    {
      puppyHunger := Min(puppyHunger + 20, MaxStat);
      puppyHappiness := Min(puppyHappiness + 10, MaxStat);
    }

    /** `playWithPuppy`: happier by 25 (capped at 100), hungrier by 5 (floored at 0). */
    method PlayWithPuppy()
      requires Valid()
      modifies this`puppyHunger, this`puppyHappiness
      ensures Valid()
      ensures puppyHappiness == Min(old(puppyHappiness) + 25, MaxStat)
      ensures puppyHunger == Max(old(puppyHunger) - 5, 0)
      ensures puppyHappiness >= old(puppyHappiness) && puppyHunger <= old(puppyHunger)
    {
      puppyHappiness := Min(puppyHappiness + 25, MaxStat);
      puppyHunger := Max(puppyHunger - 5, 0);
    }

    /** `cleanPoops`: with something to clean, no poops left and happier by 5. */
    method CleanPoops()
      requires Valid()
      modifies this`poopCount, this`puppyHappiness
      ensures Valid()
      ensures old(poopCount) == 0 ==> unchanged(this)
      ensures old(poopCount) > 0 ==> poopCount == 0 && puppyHappiness == Min(old(puppyHappiness) + 5, MaxStat)
    {
      if poopCount <= 0 {
        return;
      }
      poopCount := 0;
      puppyHappiness := Min(puppyHappiness + 5, MaxStat);
    }

    /** The cap of `calculatePoops`: new poops pile up to at most ten. */
    method AddPoops(newPoops: int)
      requires Valid()
      modifies this`poopCount
      ensures Valid()
      ensures newPoops <= 0 ==> poopCount == old(poopCount)
      ensures newPoops > 0 ==> poopCount == Min(old(poopCount) + newPoops, MaxPoops)
      ensures old(poopCount) <= poopCount <= MaxPoops
    {
      if newPoops > 0 {
        poopCount := Min(poopCount + newPoops, MaxPoops);
      }
    }
  }

  /** The selection's count for a key (`userSelection[key, default: 0]`). */
  function SelectedCount(selection: map<string, int>, key: string): int
  {
    if key in selection then selection[key] else 0
  }
}
