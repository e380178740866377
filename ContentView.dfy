/**
 * The rules the main screen adds on top of the view model: the number pad
 * that types quiz answers, the row of hearts, the language button, the mode
 * buttons (the listening quiz only in English) and the shop buttons. Layout,
 * colours and animation are not modelled.
 */
module ContentView {
  import opened Wrappers
  import opened GameData
  import opened Quiz
  import opened Session

  // ---------------------------------------------------------------------
  // The number pad
  // ---------------------------------------------------------------------

  /** The cell labelled with the digit `n`. */
  function DigitCell(n: nat): string
    requires n <= 9
  {
    [('0' as int + n) as char]
  }

  /** The twelve cells of `NumberPadView`, row by row: "1" to "9", then a blank, "0" and a blank. */
  const PadCells: seq<string> := seq(9, i requires 0 <= i < 9 => DigitCell(i + 1)) + ["", DigitCell(0), ""]

  /** One tap on a cell: a blank cell has no button; a digit is appended while fewer than three characters are typed. */
  function PadTap(input: string, cell: string): string
  {
    if cell == "" then input
    else if |input| < KeypadMaxDigits then input + cell
    else input
  }

  /** Taps one after another. */
  function PadTaps(input: string, cells: seq<string>): string
    decreases |cells|
  {
    if cells == [] then input else PadTaps(PadTap(input, cells[0]), cells[1..])
  }

  /** Cell `i` of the pad: the digits 1 to 9 on the first nine cells, 0 between the two blanks. */
  lemma PadCellAt(i: nat)
    requires i < |PadCells|
    ensures |PadCells| == 12
    ensures PadCells[i] == if i < 9 then DigitCell(i + 1) else if i == 10 then DigitCell(0) else ""
  {
  }

  /** The pad offers exactly the ten digits, each on one cell, and two blank cells. */
  lemma PadOffersDigits()
    ensures |PadCells| == 12
    ensures forall i :: 0 <= i < |PadCells| ==> (PadCells[i] == "" <==> i == 9 || i == 11)
    ensures forall i :: 0 <= i < |PadCells| && PadCells[i] != "" ==> |PadCells[i]| == 1 && IsDigit(PadCells[i][0])
    ensures forall c :: IsDigit(c) ==> [c] in PadCells
    ensures forall i, j :: 0 <= i < j < |PadCells| && PadCells[i] != "" ==> PadCells[i] != PadCells[j]
  {
    PadCellAt(0);
    forall i | 0 <= i < |PadCells|
      ensures (PadCells[i] == "" <==> i == 9 || i == 11)
      ensures PadCells[i] != "" ==> |PadCells[i]| == 1 && IsDigit(PadCells[i][0])
    {
      PadCellAt(i);
    }
    forall c | IsDigit(c) ensures [c] in PadCells {
      var n := c as int - '0' as int;
      var i := if n == 0 then 10 else n - 1;
      PadCellAt(i);
    }
    forall i, j | 0 <= i < j < |PadCells| && PadCells[i] != "" ensures PadCells[i] != PadCells[j] {
      PadCellAt(i);
      PadCellAt(j);
    }
  }

  /**
   * A tap keeps the answer something the pad can produce: a blank cell or a
   * full answer changes nothing, and otherwise exactly that digit is added at
   * the end.
   */
  lemma PadTapKeepsTypedAnswer(input: string, cell: string)
    requires TypedAnswer(input)
    requires cell in PadCells
    ensures TypedAnswer(PadTap(input, cell))
    ensures cell == "" || |input| == KeypadMaxDigits ==> PadTap(input, cell) == input
    ensures cell != "" && |input| < KeypadMaxDigits ==>
      |PadTap(input, cell)| == |input| + 1 && PadTap(input, cell)[..|input|] == input &&
      PadTap(input, cell)[|input|] == cell[0]
  {
    PadOffersDigits();
    var i :| 0 <= i < |PadCells| && PadCells[i] == cell;
  }

  /** However the pad is tapped, starting from a typed answer, the result has at most three digits. */
  lemma {:induction false} PadTapsKeepTypedAnswer(input: string, cells: seq<string>)
    requires TypedAnswer(input)
    requires forall i :: 0 <= i < |cells| ==> cells[i] in PadCells
    ensures TypedAnswer(PadTaps(input, cells))
    ensures |PadTaps(input, cells)| >= |input| && PadTaps(input, cells)[..|input|] == input
    decreases |cells|
  {
    if cells != [] {
      PadTapKeepsTypedAnswer(input, cells[0]);
      var next := PadTap(input, cells[0]);
      PadTapsKeepTypedAnswer(next, cells[1..]);
      assert PadTaps(input, cells)[..|input|] == PadTaps(next, cells[1..])[..|next|][..|input|];
    }
  }

  /**
   * A digit cell tapped on the pad: the pad is bound to `calculationInput` in
   * a calculation quiz and to `priceInput` in a price quiz.
   */
  method NumberPadTapped(vm: GameViewModel, cell: string)
    requires vm.currentGameMode == CalculationQuiz || vm.currentGameMode == PriceQuiz
    requires cell in PadCells
    modifies vm`calculationInput, vm`priceInput
    ensures vm.currentGameMode == CalculationQuiz ==>
      vm.calculationInput == PadTap(old(vm.calculationInput), cell) && vm.priceInput == old(vm.priceInput)
    ensures vm.currentGameMode == PriceQuiz ==>
      vm.priceInput == PadTap(old(vm.priceInput), cell) && vm.calculationInput == old(vm.calculationInput)
  {
    if vm.currentGameMode == CalculationQuiz {
      PadTapKeepsTypedAnswer(vm.calculationInput, cell);
      vm.calculationInput := PadTap(vm.calculationInput, cell);
    } else {
      PadTapKeepsTypedAnswer(vm.priceInput, cell);
      vm.priceInput := PadTap(vm.priceInput, cell);
    }
  }

  // ---------------------------------------------------------------------
  // Hearts
  // ---------------------------------------------------------------------

  /** How many of the first `count` heart positions are filled, a position being filled when it is below `bound`. */
  function FilledBelow(count: nat, bound: int): nat
  {
    if count == 0 then 0
    else FilledBelow(count - 1, bound) + (if count - 1 < bound then 1 else 0)
  }

  /** `TopBarView` draws `maxMistakes` hearts; heart `index` is filled when `index < maxMistakes - mistakeCount`. */
  function FilledHearts(mistakeCount: int): nat
  {
    FilledBelow(MaxMistakes, MaxMistakes - mistakeCount)
  }

  lemma {:induction false} FilledBelowCount(count: nat, bound: int)
    ensures FilledBelow(count, bound) == if bound <= 0 then 0 else if bound >= count then count else bound
  {
    if count > 0 {
      FilledBelowCount(count - 1, bound);
    }
  }

  /** One heart is emptied per mistake: all three with no mistakes, none from the third mistake on. */
  lemma FilledHeartsCount(mistakeCount: int)
    ensures 0 <= mistakeCount <= MaxMistakes ==> FilledHearts(mistakeCount) == MaxMistakes - mistakeCount
    ensures mistakeCount >= MaxMistakes ==> FilledHearts(mistakeCount) == 0
    ensures mistakeCount <= 0 ==> FilledHearts(mistakeCount) == MaxMistakes
  {
    FilledBelowCount(MaxMistakes, MaxMistakes - mistakeCount);
  }

  // ---------------------------------------------------------------------
  // The language button and the mode buttons
  // ---------------------------------------------------------------------

  /** The language button switches Japanese to English and anything else to Japanese. */
  function ToggledLanguage(language: string): string
  {
    if language == "ja" then "en" else "ja"
  }

  /** The toggle only ever produces "ja" or "en", always changes the language, and undoes itself. */
  lemma ToggleSwaps(language: LanguageCode)
    ensures ToggledLanguage(language) == "ja" || ToggledLanguage(language) == "en"
    ensures ToggledLanguage(language) != language
    ensures ToggledLanguage(ToggledLanguage(language)) == language
  {
  }

  /** The language button: the setter leaves a listening quiz when the new language is Japanese. */
  method LanguageButtonTapped(vm: GameViewModel)
    requires vm.Valid()
    modifies vm`currentLanguage, vm`timerRunning, vm`gameState, vm`currentOrder, vm`userSelection,
             vm`calculationInput, vm`priceInput, vm`currentScore, vm`isNewHighScore
    ensures vm.Valid()
    ensures vm.currentLanguage == ToggledLanguage(old(vm.currentLanguage)) && vm.currentLanguage != old(vm.currentLanguage)
    ensures vm.currentLanguage == "ja" && vm.currentGameMode == ListeningQuiz ==>
      vm.gameState == InitialSelection && !vm.timerRunning && vm.currentOrder == None
  {
    vm.SetLanguage(ToggledLanguage(vm.currentLanguage));
  }

  /** The modes `ModeSelectionView` offers: the listening quiz only in English. */
  function OfferedModes(language: string): seq<GameMode>
  {
    [Shopping, CalculationQuiz, PriceQuiz] + (if language == "en" then [ListeningQuiz] else [])
  }

  /** The three other modes are always offered; the listening quiz exactly when the language is English. */
  lemma OfferedModesRule(language: string)
    ensures Shopping in OfferedModes(language) && CalculationQuiz in OfferedModes(language) && PriceQuiz in OfferedModes(language)
    ensures ListeningQuiz in OfferedModes(language) <==> language == "en"
  {
    if language != "en" {
      assert OfferedModes(language) == [Shopping, CalculationQuiz, PriceQuiz];
    }
  }

  /** A mode picked from the offered buttons is the mode `setupGame` starts: its English-only fallback never fires. */
  lemma OfferedModeStartsAsChosen(mode: GameMode, language: string)
    requires mode in OfferedModes(language)
    ensures StartMode(mode, language) == mode
  {
    OfferedModesRule(language);
  }

  /** A mode button: `setupGame` with the chosen mode. */
  method ModeButtonTapped(vm: GameViewModel, mode: GameMode, perm: seq<nat>, d: Draw)
    requires vm.Valid()
    requires mode in OfferedModes(vm.currentLanguage)
    requires IsPermutation(perm, |ProductsFor(vm.currentShopType)|)
    requires DrawOk(mode, 0, |ProductsFor(vm.currentShopType)|, d)
    modifies vm`currentGameMode, vm`currentScore, vm`mistakeCount, vm`gameState, vm`userSelection,
             vm`calculationInput, vm`priceInput, vm`showFeedbackOverlay, vm`remainingTime,
             vm`timerRunning, vm`products, vm`currentOrder
    ensures vm.Valid()
    ensures vm.gameState == Playing && vm.timerRunning && vm.currentScore == 0 && vm.mistakeCount == 0
    ensures vm.currentGameMode == mode == RoundMode(mode, 0, |vm.products|, d)
    ensures DrawOk(mode, 0, |vm.products|, d)
    ensures vm.currentOrder == Some(RoundOrder(mode, 0, vm.products, d))
  {
    OfferedModeStartsAsChosen(mode, vm.currentLanguage);
    vm.SetupGame(mode, perm, d);
    ShippedTablesNeverFallBack(mode, 0, d);
  }

  // ---------------------------------------------------------------------
  // Shop buttons
  // ---------------------------------------------------------------------

  /** A shop button: select the shop, then reload its products in the shuffled order `perm`. */
  method ShopButtonTapped(vm: GameViewModel, shop: ShopType, perm: seq<nat>)
    requires vm.Valid()
    requires IsPermutation(perm, |ProductsFor(shop)|)
    modifies vm`currentShopType, vm`products
    ensures vm.Valid()
    ensures vm.currentShopType == shop
    ensures vm.products == Permute(ProductsFor(shop), perm)
    ensures forall i :: 0 <= i < |vm.products| ==> vm.products[i] in ProductsFor(shop)
  {
    vm.currentShopType := shop;
    vm.LoadProducts(perm);
    PermutePreserves(ProductsFor(shop), perm);
  }
}
