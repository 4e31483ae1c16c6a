# Neuropy core, modelled in Dafny

Neuropy is a Kivy learning hub for autistic children. This project models the logic behind its
screens. It covers:

- the emotion classifier pipeline (`EmotionAI`): face box padding, preprocessing, arg-max
  classification and smoothing over the last five frames;
- the emotion practice screen (`EmotionPractice`): success threshold, feedback text, and one
  celebration per target;
- Memory Match (`MemoryMatch`): level grids, a deck dealt in pairs, the preview, pair checking,
  progress stars and the hint after three misses;
- the daily routine game (`Routine`): five scenarios of four steps that are dropped into
  sequential slots;
- Visual Real-Life (`VisualRealLife`): five domains mapped from the level, the anti-repetition
  rule for questions, and drop-zone judging for counts, sums and single objects. It also covers
  the largest-first exact change for the shop, the seven-coin grid, tap questions, and the hint
  after three failures;
- Smart Bubble (`SmartBubble`): three stages of five questions, and bubble taps worth 10 points
  each;
- from `main.py`, the admin form's `add_task` validation, the timeline's day filter and cards,
  the dashboard's "now" and "next" panels and `set_icon_or_text` (`Schedule`), plus the
  sentence strip of the AAC screen (`Aac`).

Pure computations are functions with lemmas. Screens whose fields change are classes with
`modifies` frames. Their methods' contracts give the new values of the fields they change,
in terms of functions proved elsewhere. Loops in the source are methods with loop invariants: the change loop, the padding
loop, the tally and `max` scan of the smoother, the hint loop and the bubble builder. Randomness
(shuffles, `random.choice`, `randint`) becomes parameters. Examples are the shuffled deck, the
drawn question and the dealt coins, each constrained to what the random call can return.
Collision tests, detector output, inference output and the clock are parameters too. Times are
whole microseconds since the epoch.

## Model

| member | source | states |
|---|---|---|
| Seqs.Repeat | games/memory_match.py:419-420 | Python's `s * n`, empty for n <= 0; its length by `RepeatLength` |
| Seqs.RepeatLength | games/memory_match.py:419-420 | `s * n` has n times the length of s |
| Seqs.Decimal | games/smartbubble.py:296 | `str(n)` inside the f-strings: a non-empty digit string |
| Seqs.DecimalRoundTrip | games/smartbubble.py:296 | the digits of n are decimal digits and read back as n |
| Seqs.JoinSpace | main.py:194 | `" ".join(words)`; undone by `Split` per `SplitJoin` |
| EmotionAI.Padding | modules/emotion_ai.py:137 | padding is `int(0.1 * max(w, h))`: ten times it is at most the larger side and within 10 of it |
| EmotionAI.PadBox | modules/emotion_ai.py:131-141 | the padded box starts inside the frame at or before the detection and never runs past the frame's edge |
| EmotionAI.PadBoxContainsDetection | modules/emotion_ai.py:136-141 | a detection lying inside the frame is contained in its padded box |
| EmotionAI.PadBoxExact | modules/emotion_ai.py:136-141 | away from the frame edges the box grows by exactly the padding on every side |
| EmotionAI.DetectFace | modules/emotion_ai.py:109-146 | a crop is returned iff the frame is non-empty and a face was detected; the box is the padded box; the crop is empty exactly when the box is |
| EmotionAI.PreprocessFace | modules/emotion_ai.py:148-164 | an empty or missing crop gives no tensor; otherwise the tensor has the model's input size |
| EmotionAI.ArgMax | modules/emotion_ai.py:179 | `np.argmax`: the index holds the maximum and is the first index that does |
| EmotionAI.ProbabilityMap | modules/emotion_ai.py:182 | one (label, score) pair per emotion label, in label order |
| EmotionAI.EmotionAI.PredictEmotion | modules/emotion_ai.py:166-188 | no tensor, no model or a failed inference gives ("Neutral", 0.0, {}); otherwise the first maximal label with its score and the probability table |
| EmotionAI.Slide | modules/emotion_ai.py:192-194 | appending and popping the oldest keeps at most five entries and ends with the new one |
| EmotionAI.ReplayIsLastFive | modules/emotion_ai.py:190-194 | after any run of predictions the history is exactly the last five (or fewer) results |
| EmotionAI.Replay | modules/emotion_ai.py:190-194 | the history after feeding results one at a time; equal to the last five by `ReplayIsLastFive` |
| EmotionAI.LastN | modules/emotion_ai.py:192-194 | the last n entries, or all of them when there are fewer |
| EmotionAI.SlideLastN | modules/emotion_ai.py:192-194 | one slide step keeps "history = last five of everything seen" |
| EmotionAI.PickMax | modules/emotion_ai.py:200 | `max(counts, key=counts.get)` returns one of the counted labels |
| EmotionAI.FirstLabelsMembers | modules/emotion_ai.py:197-198 | a label is a key of the counts iff it occurs in the history |
| EmotionAI.FirstLabelsDistinct | modules/emotion_ai.py:197-198 | the dictionary's keys, in insertion order, are distinct |
| EmotionAI.FirstLabelsPrefix | modules/emotion_ai.py:197-198 | the keys seen in a prefix of the history are a prefix of the key order |
| EmotionAI.PickMaxIsMaximal | modules/emotion_ai.py:200 | no key has a larger count than the chosen one |
| EmotionAI.PickMaxIsFirst | modules/emotion_ai.py:200 | on ties `max` keeps the earliest key in insertion order |
| EmotionAI.ModeIsMostFrequent | modules/emotion_ai.py:195-200 | the smoothed emotion occurs in the history and no label occurs more often |
| EmotionAI.ModeTieBreak | modules/emotion_ai.py:195-200 | among equally frequent labels, the smoothed one was first seen no later than any other |
| EmotionAI.Mode | modules/emotion_ai.py:195-200 | the smoothed emotion; most frequent by `ModeIsMostFrequent`, first-seen on ties by `ModeTieBreak` |
| EmotionAI.SumConfBounds | modules/emotion_ai.py:199 | the summed confidence lies between n times the lowest and n times the highest |
| EmotionAI.MeanWithinBounds | modules/emotion_ai.py:201 | the smoothed confidence lies within the range of the confidences averaged |
| EmotionAI.Mean | modules/emotion_ai.py:201 | the mean confidence of the history; within its range by `MeanWithinBounds` |
| EmotionAI.Tally | modules/emotion_ai.py:195-199 | the counting loop yields every label's count, the keys in first-seen order and the total confidence |
| EmotionAI.MostCounted | modules/emotion_ai.py:200 | the scan over the counts returns the same label as the specification of `max` |
| EmotionAI.EmotionAI.constructor | modules/emotion_ai.py:21-50 | an empty history; the TFLite model is used when its file exists, the H5 model only when it does not; a failed load leaves no model; the input size is the loaded model's, else 48 |
| EmotionAI.EmotionAI.LoadModel | modules/emotion_ai.py:52-107 | the same load order and fallback, with the input size taken from the loaded model |
| EmotionAI.NoOtherLabel | modules/emotion_ai.py:195-198 | a window holding only Neutral/0.0 pairs counts no other label |
| EmotionAI.DegradedWindowSmooths | modules/emotion_ai.py:190-202 | a window holding only Neutral/0.0 pairs smooths to Neutral with confidence 0.0 |
| EmotionAI.SlideDegraded | modules/emotion_ai.py:192-194 | sliding the degraded pair into a degraded window keeps it degraded |
| EmotionAI.EmotionAI.SmoothPrediction | modules/emotion_ai.py:190-202 | history slides by one; the result is the most frequent label (earliest on ties) and the mean confidence |
| EmotionAI.EmotionAI.Predict | modules/emotion_ai.py:204-233 | no face gives the "No Face" result with history untouched; otherwise the smoothed prediction of the classified crop with its box; without a model every face frame gives Neutral, 0.0 and no probabilities, and the window keeps only Neutral/0.0 pairs |
| EmotionPractice.CardsAreClassifierLabels | games/emotions.py:89-96 | every emotion card names a label the classifier can produce |
| EmotionPractice.Succeeds | games/emotions.py:140 | a face, the target label, and confidence above 0.4; decides the praise in `FeedbackText` |
| EmotionPractice.FeedbackText | games/emotions.py:134-148 | "No face detected" iff no face; "Perfect! You showed <target>!" iff target matched above 0.4; otherwise "Detected: <emotion>" |
| EmotionPractice.Latch | games/emotions.py:140-146 | success, once shown, stays shown |
| EmotionPractice.RunCelebratesOnce | games/emotions.py:140-146 | over any sequence of frames, confetti fires once if some frame succeeds and never otherwise |
| EmotionPractice.PracticeScreen.constructor | games/emotions.py:101-106 | no target and no success shown |
| EmotionPractice.PracticeScreen.SetTargetEmotion | games/emotions.py:108-110 | sets the target and re-arms the celebration |
| EmotionPractice.PracticeScreen.OnEnter | games/emotions.py:112-116 | shows "Show me: <target>" when a target is set; the next button starts disabled |
| EmotionPractice.PracticeScreen.ProvideFeedback | games/emotions.py:134-148 | feedback text as above; the first success enables next and celebrates once |
| EmotionPractice.PracticeScreen.UpdateEmotion | games/emotions.py:126-132 | no camera, stopped camera or no frame changes nothing and gives no result; with no face, the "No face detected" result and the history kept; with a face, the crop's prediction slides into the history and the result is the smoothed mode and mean, the probabilities and the box (Neutral, 0.0 and no probabilities when no model is loaded); then the feedback text, the success latch, and on a first success Next enabled and one celebration |
| MemoryMatch.ShapesDistinct | games/memory_match.py:96-105 | the eight shapes are distinct |
| MemoryMatch.Grid | games/memory_match.py:368-373 | level 1 is 3x2, level 2 is 4x3, any other level 4x4 |
| MemoryMatch.Pairs | games/memory_match.py:378-379 | the pair count is between 3 and the number of shapes |
| MemoryMatch.ProgressStars | games/memory_match.py:417-426 | the progress line holds one filled star per match and one empty star per remaining pair |
| MemoryMatch.ProgressText | games/memory_match.py:417-426 | "Progress: " with a filled star per match and an empty one per pair left; counted by `ProgressStars` |
| MemoryMatch.SymbolCount | games/memory_match.py:417-426 | symbol counts in the progress line add up part by part |
| MemoryMatch.OnlyTwo | games/memory_match.py:384-389 | a shape occurs on exactly two tiles of the deck |
| MemoryMatch.RevealPair | games/memory_match.py:477-487 | revealing a hidden matching pair keeps the board invariant with one more match |
| MemoryMatch.MatchesBounded | games/memory_match.py:489 | matches never exceed pairs, and all pairs are matched iff every tile is revealed |
| MemoryMatch.MemoryMatchGame.Won | games/memory_match.py:489 | all pairs found; the same as every tile face up by `WonAllRevealed` |
| MemoryMatch.WonAllRevealed | games/memory_match.py:489 | on a consistent board, matches reach the pair count exactly when every tile is revealed |
| MemoryMatch.Unrevealed | games/memory_match.py:464 | the list of unrevealed tiles, in grid order |
| MemoryMatch.UnrevealedCount | games/memory_match.py:464 | its length is the number of hidden tiles |
| MemoryMatch.WithShape | games/memory_match.py:467 | exactly the listed tiles of the given shape, in order, starting with the first when it matches |
| MemoryMatch.HintIsAPair | games/memory_match.py:462-469 | with pairs left, the hint is two distinct hidden tiles of one shape, the first hidden tile among them |
| MemoryMatch.HintPair | games/memory_match.py:462-469 | the first two hidden tiles with the first hidden tile's shape; a real pair by `HintIsAPair` |
| MemoryMatch.HiddenPair | games/memory_match.py:464-467 | the first hidden tile has a hidden partner |
| MemoryMatch.TwoHidden | games/memory_match.py:465 | with pairs left, at least two tiles are hidden, so the `len >= 2` guard always passes |
| MemoryMatch.FirstUnrevealed | games/memory_match.py:466 | every tile before the first hidden one is revealed |
| MemoryMatch.DealtInPairs | games/memory_match.py:384-389 | a shuffled deck of the chosen shapes doubled has twice as many tiles, each shape twice |
| MemoryMatch.LayTiles | games/memory_match.py:391-397 | the tiles are laid in deck order, all face down |
| MemoryMatch.FreshBoard | games/memory_match.py:384-397 | a freshly dealt board satisfies the board invariant with no matches |
| MemoryMatch.MemoryMatchGame.constructor | games/memory_match.py:262-283 | level 1 and its new game: the level's grid and pair count, the dealt deck all face down, no matches, misses or hint, empty progress stars, locked for the preview |
| MemoryMatch.MemoryMatchGame.SetLevel | games/memory_match.py:353-358 | the level is set and its new game begins, with the same fresh state as `NewGame` |
| MemoryMatch.MemoryMatchGame.NewGame | games/memory_match.py:360-403 | grid, pairs and progress follow the level; all tiles hidden; no tiles up; locked until the preview ends |
| MemoryMatch.MemoryMatchGame.StartPreview | games/memory_match.py:360-366 | turn state is cleared and the board is locked |
| MemoryMatch.MemoryMatchGame.Deal | games/memory_match.py:368-397 | grid and pair count follow the level; the deck is laid face down with no matches |
| MemoryMatch.MemoryMatchGame.EndPreview | games/memory_match.py:411-415 | the board unlocks |
| MemoryMatch.MemoryMatchGame.OnTilePress | games/memory_match.py:428-443 | a locked board, revealed tile or tile already up is ignored; otherwise the tile goes up, hints clear, and the second tile locks and schedules the check |
| MemoryMatch.MemoryMatchGame.CheckPair | games/memory_match.py:445-456 | same shape: matched and revealed, misses reset; different: one more miss and a flip back pending |
| MemoryMatch.MemoryMatchGame.HandleMatch | games/memory_match.py:477-490 | one more match, misses reset, board unlocked, progress redrawn; won iff every tile is revealed |
| MemoryMatch.MemoryMatchGame.FlipBackAndHint | games/memory_match.py:458-475 | tiles go down and the board unlocks; from the third miss with pairs left, the hint pair is shown |
| Routine.ScenariosWellFormed | games/routine.py:17-38 | five scenarios, each with four distinct steps |
| Routine.SlotTexts | games/routine.py:206-210 | four slot texts at every step |
| Routine.Placed | games/routine.py:285 | a filled slot reads "<step> ‚úî" |
| Routine.NumberedRow | games/routine.py:206-210 | the reset row "Step 1" … "Step 4"; the start of `SlotTexts` by `SlotTextsStart` |
| Routine.BlankRow | games/routine.py:188-190 | the row after the last scenario: every slot text empty |
| Routine.SlotTextsStart | games/routine.py:206-210 | the reset row reads "Step 1" … "Step 4" |
| Routine.SlotTextsAdvance | games/routine.py:283-285 | a correct drop writes "<step> ‚úî" into exactly the current slot |
| Routine.StepLabels | games/routine.py:166-171 | the slot-creation loop labels slot i "Step i+1" |
| Routine.FirstHit | games/routine.py:254-259 | the first colliding slot, or none iff no slot collides |
| Routine.FirstColliding | games/routine.py:254-259 | the collision loop returns the first colliding slot |
| Routine.MakeTasks | games/routine.py:212-238 | one task per shuffled step, in shuffled order, all in the tray |
| Routine.NextStepInTray | games/routine.py:273 | while steps remain, the expected step is still in the tray |
| Routine.DealtAdvance | games/routine.py:283-301 | placing the expected task keeps the tray consistent with one more step done |
| Routine.DealtFresh | games/routine.py:212-238 | a fresh shuffle is consistent with step 0 |
| Routine.PlaceStep | games/routine.py:283-307 | a correct drop keeps the slot row and tray consistent, moving to the next scenario after step four |
| Routine.AllPlaced | games/routine.py:304 | after four correct drops the tray is empty |
| Routine.RoutineGame.constructor | games/routine.py:166-176 | slots read "Step 1" … "Step 4"; scenario and step 0 |
| Routine.RoutineGame.LoadCurrentScenario | games/routine.py:181-202 | past the last scenario: "All Scenarios Complete" with blank slots; otherwise the title, step 0, reset slots and a fresh shuffle |
| Routine.RoutineGame.ShowCompletion | games/routine.py:184-192 | the completion label, blank slots and an empty tray |
| Routine.RoutineGame.StartScenario | games/routine.py:194-202 | the scenario's title, step 0, reset slots and the shuffled tasks |
| Routine.RoutineGame.ResetSlots | games/routine.py:206-210 | the slots read "Step 1" … "Step 4" |
| Routine.RoutineGame.CreateAndShuffleTasks | games/routine.py:212-241 | the tray holds the shuffled steps, or nothing when the index is out of range |
| Routine.RoutineGame.HandleDrop | games/routine.py:243-281 | no collision changes nothing; the right task on the current slot fills it and advances with "Correct!", or after step four "Scenario Complete" and the next scenario; anything else resets the slots, reshuffles a full tray and says "Try Again" |
| Routine.RoutineGame.CorrectDrop | games/routine.py:283-310 | the slot is filled and the step advances; "Correct!", or after step four "Scenario Complete" and the next scenario |
| Routine.RoutineGame.WrongDrop | games/routine.py:312-324 | "Try Again", step 0, reset slots, reshuffled tray |
| VisualRealLife.DomainOf | games/visual_real_life.py:379-383 | levels 1–4 are counting, comparison, daily and money; every other level is safety |
| VisualRealLife.Candidate | games/visual_real_life.py:388-413 | the drawn question: tap for comparison and safety, drag with a count, sum or single-object rule otherwise |
| VisualRealLife.AcceptKeepsHistory | games/visual_real_life.py:415-421 | accepting keeps every instruction at most twice in history and never twice in a row |
| VisualRealLife.Accepts | games/visual_real_life.py:415-421 | an instruction asked fewer than twice and not the last one; kept by `AcceptKeepsHistory` |
| VisualRealLife.Attempt | games/visual_real_life.py:415-421 | a draw is accepted iff its instruction occurs under twice and is not the last one; it is then appended |
| VisualRealLife.ComparisonStalls | games/visual_real_life.py:394-421 | level 2 has only two instructions, so after four accepted questions no draw is accepted again |
| VisualRealLife.PayText | games/visual_real_life.py:405 | "Pay Rs.<price> for <icon>" for a product |
| VisualRealLife.PayTextsDistinct | games/visual_real_life.py:405 | the five products give five different instructions |
| VisualRealLife.StallingHistoryAccepted | games/visual_real_life.py:415-421 | five different instructions asked as A B A B C D C D E pass the rule one by one |
| VisualRealLife.StallingHistoryFull | games/visual_real_life.py:415-421 | after A B A B C D C D E none of the five is accepted |
| VisualRealLife.MoneyStalls | games/visual_real_life.py:394-421 | level 4 can reach nine accepted questions after which no draw is accepted |
| VisualRealLife.ComparisonHistoryBounded | games/visual_real_life.py:415-421 | a level-2 history can never exceed four entries |
| VisualRealLife.DenomsSortedCoins | games/visual_real_life.py:449 | the coin values sorted largest first are the shop's five coins |
| VisualRealLife.ChangeBounds | games/visual_real_life.py:452-457 | greedy change never overpays and leaves less than Rs.10 unpaid |
| VisualRealLife.ChangeCoins | games/visual_real_life.py:454-456 | the change uses only the shop's coins |
| VisualRealLife.PricesPaidExactly | games/visual_real_life.py:452-457 | every product price is paid exactly, with at most two coins |
| VisualRealLife.ChangeExact | games/visual_real_life.py:452-457 | any price in whole tens is paid exactly |
| VisualRealLife.Change | games/visual_real_life.py:452-457 | largest-first change; bounded by `ChangeBounds`, exact by `ChangeExact` |
| VisualRealLife.GuaranteedCoins | games/visual_real_life.py:452-457 | the nested loop computes the greedy change and what is left unpaid |
| VisualRealLife.Padded | games/visual_real_life.py:463-467 | with enough pool coins the list has exactly seven coins; a longer guaranteed list is kept whole |
| VisualRealLife.PadCoins | games/visual_real_life.py:463-467 | the padding loop appends pool coins until seven |
| VisualRealLife.ExactChangeShown | games/visual_real_life.py:460-473 | seven coins are always shown, and when the change takes at most seven coins they are all among them |
| VisualRealLife.LayoutFor | games/visual_real_life.py:480-499 | money uses 2 columns; counting 2 columns up to six items, else 3; steps are positive |
| VisualRealLife.Cell | games/visual_real_life.py:501-509 | an item's row is clamped to the 0.12 floor |
| VisualRealLife.NoClamp | games/visual_real_life.py:442-509 | for the item counts the game builds, no row reaches the floor clamp |
| VisualRealLife.ZoneValue | games/visual_real_life.py:573 | the summed coin value of the basket, which Judge compares with the target |
| VisualRealLife.Signed | games/visual_real_life.py:579 | Python's `str` of a possibly negative amount in the progress line |
| VisualRealLife.Judge | games/visual_real_life.py:555-587 | counting, sum and single-object rules: success iff exact, failure iff over (or wrong object), open iff under |
| VisualRealLife.CountingItems | games/visual_real_life.py:442-446 | a counting question shows the target icon on qty+2 to qty+5 tiles |
| VisualRealLife.MoneyItems | games/visual_real_life.py:447-473 | a money question shows seven coins, with the exact change among them |
| VisualRealLife.TapItems | games/visual_real_life.py:517-524 | one tap tile per option, marked correct iff it is the answer |
| VisualRealLife.Items | games/visual_real_life.py:423-524 | the tasks laid out: item copies, coins or shuffled options; described by `CountingItems`, `MoneyItems`, `TapItems` |
| VisualRealLife.Matching | games/visual_real_life.py:653-654 | the tiles eligible to glow are at most the tiles there are |
| VisualRealLife.MatchingExact | games/visual_real_life.py:653-654 | eligible tiles are exactly those with the target icon that are outside the basket |
| VisualRealLife.GlowCount | games/visual_real_life.py:652-657 | the loop glows at least one tile when any match, never more than match, and exactly `need` when 1 ≤ need ≤ matches |
| VisualRealLife.GlowTargets | games/visual_real_life.py:652-657 | the hint loop glows the first eligible tiles, stopping after `need` |
| VisualRealLife.MatchingPrefix | games/visual_real_life.py:653-657 | the eligible tiles of a prefix are a prefix of the eligible tiles |
| VisualRealLife.Need | games/visual_real_life.py:651 | with an empty basket the number still needed is the target quantity |
| VisualRealLife.HintShortByOne | games/visual_real_life.py:651 | as written, "pick 2" with four matching tiles glows one tile |
| VisualRealLife.NeedAsWritten | games/visual_real_life.py:651 | the target less the basket's children, title label included |
| VisualRealLife.HintGlowsTarget | games/visual_real_life.py:649-657 | with the corrected count the hint glows exactly the target quantity |
| VisualRealLife.ZoneItems | games/visual_real_life.py:555 | the basket's items, one per basket entry |
| VisualRealLife.RemoveFirst | games/visual_real_life.py:217 | `list.remove` of a basket item (its properties are RemoveFirstDistinct) |
| VisualRealLife.RemoveFirstDistinct | games/visual_real_life.py:216-217 | picking an item out of the basket removes it and keeps the others |
| VisualRealLife.DropKeepsZone | games/visual_real_life.py:216-217 | picking up and dropping keep the basket a list of distinct tiles |
| VisualRealLife.HintTilesExist | games/visual_real_life.py:642-663 | every tile the hint glows exists |
| VisualRealLife.HintTiles | games/visual_real_life.py:642-663 | the tiles the hint glows per rule; they exist by `HintTilesExist`, and a counting hint glows the target by `HintGlowsTarget` |
| VisualRealLife.Header | games/visual_real_life.py:362 | "[i/10] Lvl n:   instruction" |
| VisualRealLife.HeaderShows | games/visual_real_life.py:362 | the header names question i+1 of 10 as a decimal that reads back, and ends with the instruction |
| VisualRealLife.VrlGame.constructor | games/visual_real_life.py:333-338 | question 0 at level 1 with empty history, tasks and basket |
| VisualRealLife.VrlGame.StartSession | games/visual_real_life.py:340-344 | the level is set and question 1 is laid out with a fresh history: its header, tasks, an empty basket, no failures, no feedback, glow or lock |
| VisualRealLife.VrlGame.LoadCurrentQuestion | games/visual_real_life.py:346-375 | after ten questions the block-done screen with the next level offered below 5, glows off, failures and lock kept; otherwise an accepted draw is laid out, a rejected one leaves the screen, the lock, the glows and the next-level offer as they were |
| VisualRealLife.VrlGame.ShowBlockDone | games/visual_real_life.py:348-359 | "All Challenges Complete!", "You crushed Level n!", next level offered below 5 |
| VisualRealLife.VrlGame.LayOut | games/visual_real_life.py:361-372 | header "[i/10] Lvl n: …", cleared feedback and failures, the question's items, an empty basket |
| VisualRealLife.VrlGame.Drag | games/visual_real_life.py:536-596 | locked tiles do nothing; pickup removes from the basket; a drop outside does nothing more; a drop inside appends and judges: success locks and advances, failure empties the basket, counts a failure and from the third glows the hint, open shows progress; glows change only on success or failure |
| VisualRealLife.VrlGame.Tap | games/visual_real_life.py:598-602 | locked tiles do nothing; the right tile advances and stops the glows; a wrong one counts a failure and, from the third, hints |
| VisualRealLife.VrlGame.CorrectAction | games/visual_real_life.py:604-622 | "✔ Correct! Awesome!", tiles locked, next question; tap glows stop |
| VisualRealLife.VrlGame.WrongAction | games/visual_real_life.py:624-636 | one more failure, the message shown, the basket emptied for drag questions, the hint from the third failure |
| VisualRealLife.VrlGame.TriggerHint | games/visual_real_life.py:638-663 | the hint text, the daily target, the counting tiles, the money counter or the right tap option glows |
| SmartBubble.StagesWellFormed | games/smartbubble.py:32-63 | three stages, five questions each, four distinct options with the answer among them exactly once |
| SmartBubble.ProgressText | games/smartbubble.py:309 | "Question i of 5" for 0-based index i−1; read back by `LabelsReadBack` |
| SmartBubble.ScoreText | games/smartbubble.py:296 | "Score: n"; read back by `LabelsReadBack` |
| SmartBubble.LabelsReadBack | games/smartbubble.py:296-309 | the progress line names question i+1 and the score line the score, as decimal numbers that read back to them |
| SmartBubble.Bubbles | games/smartbubble.py:335-341 | one bubble per shuffled option |
| SmartBubble.MakeBubbles | games/smartbubble.py:335-341 | the bubble loop builds the bubbles in option order |
| SmartBubble.OneCorrectBubble | games/smartbubble.py:323-341 | each question shows four bubbles at distinct places, exactly one correct |
| SmartBubble.AllDisabled | games/smartbubble.py:364-365 | every bubble is disabled afterwards, so no further tap is taken |
| SmartBubble.DisableKeepsBubbles | games/smartbubble.py:364-365 | after disabling, the same bubble is the right one, the texts and distinct places are kept, and disabling again changes nothing |
| SmartBubble.BubbleGame.constructor | games/smartbubble.py:274-278 | no stage, index 0, score 0, no bubbles, not processing |
| SmartBubble.BubbleGame.StartGame | games/smartbubble.py:287-298 | an unknown stage changes nothing; a known stage resets score and index and loads its first question: its bubbles, instruction, "Question 1 of 5", empty feedback, not complete |
| SmartBubble.BubbleGame.LoadQuestion | games/smartbubble.py:300-344 | past question five (or the last question): "Stage Complete 🎉" with the progress line kept; otherwise "Question i of 5", the instruction and its bubbles |
| SmartBubble.BubbleGame.ShowCompletion | games/smartbubble.py:378-386 | the bubbles and instruction clear and "Stage Complete 🎉" shows |
| SmartBubble.BubbleGame.OnBubbleTap | games/smartbubble.py:346-375 | taps while processing or on a disabled bubble are ignored; the right bubble scores 10, shows the new score, disables all and advances; a wrong one says "Try Again" and keeps the score line; score stays 10 × questions answered |
| SmartBubble.BubbleGame.DisableAll | games/smartbubble.py:364-365 | every bubble is disabled |
| Schedule.TrimLeftShape | main.py:240-243 | `strip` removes exactly the leading whitespace |
| Schedule.TrimLeft | main.py:240-243 | `lstrip`; characterised by `TrimLeftShape` |
| Schedule.TrimRightShape | main.py:240-243 | `strip` removes exactly the trailing whitespace |
| Schedule.TrimRight | main.py:240-243 | `rstrip`; characterised by `TrimRightShape` |
| Schedule.StripShape | main.py:240-243 | a stripped field has no whitespace at either end and is empty iff the field was all whitespace |
| Schedule.Strip | main.py:240-243 | `strip`; characterised by `StripShape` and `StripIdempotent` |
| Schedule.StripIdempotent | main.py:240-243 | stripping twice is stripping once |
| Schedule.StoredIcon | main.py:259 | an empty icon is stored as "📅"; any other is kept |
| Schedule.Validate | main.py:245-259 | each error message exactly when its condition holds; Ok exactly when title, start and end are present, both times read and start is before end, and then an event today with start before end |
| Schedule.AdminForm.constructor | main.py:205-208 | empty form fields and no popup |
| Schedule.AdminForm.AddTask | main.py:239-271 | a valid form stores the event and clears the fields; an invalid one shows the message and keeps everything |
| Schedule.MidnightEventHidden | main.py:301-307 | as written, an event at 00:00 today is left out of the timeline when the clock has microseconds |
| Schedule.DayStartAsWritten | main.py:301 | `replace(hour=0, minute=0, second=0)`: midnight plus the clock's microseconds; shown too late by `MidnightEventHidden` |
| Schedule.DayEndAsWritten | main.py:302 | `replace(hour=23, minute=59, second=59)`: 23:59:59 plus the clock's microseconds |
| Schedule.OnTodayAsWritten | main.py:304-306 | the query's filter as written, between the two bounds inclusive |
| Schedule.OnToday | main.py:304-306 | the filter with the microseconds cleared; equivalent to "starts on today's date" by `OnTodaySameDay` |
| Schedule.DayStart | main.py:301 | midnight of today: on a day boundary and within a day before now |
| Schedule.OnTodaySameDay | main.py:301-307 | the corrected filter keeps an event iff it starts on today's date |
| Schedule.AddedEventListed | main.py:301-307 | every event the form accepts appears on that day's timeline |
| Schedule.TodayRows | main.py:304-306 | the day filter keeps exactly the events of the table starting on now's day |
| Schedule.InsertByStartKeeps | main.py:307 | inserting a row keeps every row and adds it once |
| Schedule.InsertByStartFrom | main.py:307 | an inserted sequence holds only the new row and the old rows |
| Schedule.InsertByStartOrdered | main.py:307 | inserting into rows ordered by start keeps them ordered |
| Schedule.SortByStartOk | main.py:307 | `order_by(Event.start_time)` returns the same rows, ordered by start |
| Schedule.InsertByStart | main.py:307 | one row placed into start order (its properties are InsertByStartKeeps, InsertByStartFrom and InsertByStartOrdered) |
| Schedule.SortByStart | main.py:307 | `order_by(Event.start_time)` as insertion by start (its properties are SortByStartOk) |
| Schedule.TimelineRows | main.py:304-307 | the timeline query: the day's rows ordered by start (its properties are TimelineRowsOk) |
| Schedule.TimelineRowsOk | main.py:304-307 | the timeline lists each event of the day as often as the table holds it, nothing else, and earlier starts first |
| Schedule.CardOf | main.py:311-352 | "(NOW)" iff current, "(DONE)" iff ended, faded iff ended, an image of the path iff the icon ends in .png or .jpg, otherwise the icon text or the "📅" fallback |
| Schedule.PastNotCurrent | main.py:312-335 | a card is never both current and faded |
| Schedule.Cards | main.py:311-358 | one card per event |
| Schedule.LoadTimeline | main.py:298-358 | the timeline shows one card per row of the day query ordered by start, in that order |
| Schedule.BuildCards | main.py:311-358 | the card loop builds one card per row, in row order |
| Schedule.Current | main.py:90 | some event covering now, or none iff none does |
| Schedule.Next | main.py:91 | the earliest event starting after now, or none iff none does |
| Schedule.IconChoice | main.py:99-111 | .png and .jpg names show an image; anything else shows text, empty as "📍" |
| Schedule.Dashboard.constructor | main.py:65 | a new dashboard shows empty now and next titles |
| Schedule.Dashboard.OnEnter | main.py:66-69 | entering the dashboard shows the current event or "Free Time"/📍 and the next event or "All Done!"/✅ |
| Schedule.Dashboard.UpdateNowNext | main.py:86-97 | "now" shows the current event or "Free Time"/📍; "next" the next event or "All Done!"/✅ |
| Aac.LastIndex | main.py:194 | the last space in the text, if any |
| Aac.Split | main.py:194 | splitting at spaces |
| Aac.SplitJoin | main.py:194 | joining words without spaces and splitting again gives the words back |
| Aac.JoinSpaceLength | main.py:194 | the spoken sentence is the words' lengths plus one space between neighbours |
| Aac.WordAppended | main.py:174-190 | a tapped word adds exactly one chip and one speech text at the end, leaving the earlier ones |
| Aac.SentenceSaysEachWord | main.py:192-195 | when no speech text contains a space, the spoken sentence splits at spaces into exactly the tapped words' texts, in order |
| Aac.JoinSpaceLayout | main.py:194 | in a space-joined sentence each text sits after the earlier texts and one space per earlier text, followed by a space unless it is last |
| Aac.SpokenWordsInPlace | main.py:192-195 | for any speech texts, the spoken sentence holds each tapped word's text at its place, a space after every word but the last |
| Aac.SentenceStrip.constructor | main.py:114-116 | an empty sentence |
| Aac.SentenceStrip.AddToSentence | main.py:174-190 | appends the word and its chip, and says the word |
| Aac.SentenceStrip.SpeakSentence | main.py:192-195 | an empty sentence says nothing; otherwise the words' texts joined by spaces |
| Aac.SentenceStrip.ClearSentence | main.py:197-199 | no words and no chips |

## Left out

- Kivy widgets, layout sizes, colours, animations, fonts, confetti and popups are not modelled.
  Only the texts and the state the logic depends on are.
- The MediaPipe detector, OpenCV conversion and resizing, and TFLite/Keras inference are
  parameters. The detector supplies a box, inference supplies a score list or raises, and a load
  succeeds with an input size or fails.
- Floating-point arithmetic is modelled with reals. The padding's float truncation is modelled
  as integer division, which agrees for non-negative sizes.
- The SQLAlchemy database is a list of events. `.first()` without `order_by` is taken in table
  order, and `update_now_next`'s "next" resolves ties in start time to the earliest in table order.
- `datetime.strptime(..., '%H:%M')` is the parameter `parse`. It returns the minute of the day
  or nothing.
- `Schedule.Strip`: only ASCII whitespace is stripped. Python's `str.strip` also removes
  Unicode spaces.
- The "Unexpected error" branch of `add_task` (a database failure) is not modelled.
- `load_admin_events`, `delete_event`, `load_aac_data` and `filter_buttons` are not modelled,
  because they only list and filter rows.
- Speech (`pyttsx3`) is the list of texts handed to the engine.
- Clock callbacks (`Clock.schedule_once`) are separate methods that a caller invokes in order.
  Cancelled or stale timers and taps racing a pending callback are not modelled.
- `random.choice` feedback messages in Memory Match are not modelled.
- In Memory Match, `_new_game` resets `_hinted_tile`, but the hint list `_hinted_tiles` is what
  gets shown and cleared. The model keeps one hint list, which `OnTilePress` clears.
- `VisualRealLife.VrlGame.TriggerHint` glows `Need` tiles for a counting question: the
  corrected count from the first row of "## Findings", one more than the source's
  `target_qty - len(drop_zone.children)`. `HintShortByOne` shows the count as written.
- `VisualRealLife.VrlGame.WrongAction` and `VisualRealLife.VrlGame.Drag` glow the hint through
  `TriggerHint`'s `HintTiles`, so the same corrected count applies to a counting question (a
  tap question's hint has no count).
- `VisualRealLife.HintTiles`: its counting branch uses the corrected `Need`, not `NeedAsWritten`.
- `Schedule.TodayRows`, `Schedule.TimelineRows` and `Schedule.LoadTimeline` show the day of
  the corrected `OnToday` from the second row of "## Findings". As written, the query uses
  `OnTodayAsWritten`, which drops a 00:00 event whenever now carries microseconds (see
  `MidnightEventHidden`). `TimelineRows` adds the start-time ordering on top of `TodayRows`.
- `VisualRealLife.VrlGame.LoadCurrentQuestion`: the `while True` retry loop of
  `generate_question_for_level` is one attempt with a given draw. A rejected draw leaves the
  screen unchanged. `ComparisonStalls` proves that at level 2 every draw is rejected after four
  questions, so the source's loop cannot end there.
- `VisualRealLife.MoneyStalls` shows the same for level 4: five products allow at most nine
  questions in some orders, short of the block of ten.
- `VisualRealLife.VrlGame.ShowBlockDone`: the "Start Level n+1" button is the `nextLevel` field.
  Pressing it is `StartSession`.
- The widget-building loops of `build_drag_domain` and `build_tap_domain`, except the money
  loops, are the functions `Items` and `LayoutFor`/`Cell` rather than methods.
- `return_to_menu` timers in Smart Bubble and Routine, and the `_go_home` navigation, are not
  modelled.
- Exceptions caught and printed in the game screens (`except Exception: print(...)`) cannot
  occur in the model. Every index is proved in range.
- `draw_results`, `cleanup`, the camera module and the hub menus are not modelled.

## Findings

| source | as written | input that shows it | evidently intended | confidence | as-written member | corrected member |
|---|---|---|---|---|---|---|
| games/visual_real_life.py:651 | the counting hint glows `target_qty - len(drop_zone.children)` tiles. The children include the basket's title label, and the basket was just emptied, so one tile too few glows | "Pick 2" with four banana tiles, after a third failure: one tile glows | glow as many tiles as are still needed (`target_qty` minus the items in the basket) | not executed | VisualRealLife.HintShortByOne | VisualRealLife.HintGlowsTarget |
| main.py:301 | `now.replace(hour=0, minute=0, second=0)` keeps the microseconds, so the timeline's lower bound is later than midnight | now = 09:00:00.123456 and an event added for 00:00 today (stored with 0 µs): it is not listed | the day starts at 00:00:00.000000 (`microsecond=0` as well) | not executed | Schedule.MidnightEventHidden | Schedule.OnTodaySameDay |
