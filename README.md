# Wellness app pages: a verified model of their event handlers

The app is a set of React pages for young people's well-being. Each page keeps a few
`useState` fields, and its buttons, mouse and touch events and timers update them. All of
the app's logic lives in these handlers. This project models the handlers of eight
pages in Dafny and proves what each page promises.

- **Scratch cards** (`scratch_game.dfy`): six cards, each under a silver overlay
  that the mouse erases. Releasing or leaving the pressed card reveals a reward
  from a fixed table and credits its amount. "New Cards" hides every card again.
- **Creative space** (`creative_space.dfy`): a drawing canvas. A pressed mouse or finger
  strokes one segment per move, with the pen or the eraser. The page also has a
  palette, five brush sizes and a Clear button.
- **Relax games** (`relax_games.dfy`): a 4-4-4 breathing bubble, six of nine
  therapy colours, a bubble garden of at most ten bubbles, zen squares, and one
  points ledger. Flowers and mindful moments are derived from the ledger.
- **Mood tracker** (`mood_tracker.dfy`): six mood options, a seven-day window
  that slides on every save, a streak, and the week's average.
- **Affirmations** (`affirmations.dfy`): ten of forty affirmations in a random
  order, and a duplicate-free favourites list with a star toggle.
- **Journal** (`journal.dfy`): entries listed newest first, an editor, writing
  prompts, and a preview of five entries cut to 200 characters.
- **Chat friend** (`chat_friend.dfy`): a message log that opens with a welcome.
  Sending appends the user's message and schedules one canned bot reply.
- **Emergency** (`emergency.dfy`): a three-step breathing guide and a grounding
  exercise, opened from a list of self-care resources.

Shared modules:

- `common.dfy`: `Option`, duplicate-freedom, and the first entries of a shuffled table.
- `text.dfy`: JavaScript's `trim`, used to refuse blank input.
- `canvas.dfy`: an abstract canvas. The bitmap is a log of painting operations.
  `Render` reduces a log to what it shows: the backdrop laid down by the last
  full-canvas fill, plus the marks painted over it.

Each page is a class. Its fields are the page's state variables and its methods
are the handlers. Each handler runs as one atomic step. A random draw is an
index parameter. A random shuffle is an `order` parameter, a list of the table's
indices, each exactly once. A timer callback is its own step method:
`BreathingTick`, `FadeBubble` and `DeliverReply`.

## Model

| member | source | states |
|---|---|---|
| Common.Pick | src/pages/Affirmations.tsx:60-62 | the first `k` entries of a table in a shuffled order: `k` entries, each a table entry, and no two equal when the table has none |
| Text.TrimStart | src/pages/Journal.tsx:61 | removes exactly the leading white space: the result is a suffix of the input, all removed characters are white, and the result does not start with white space |
| Text.TrimEnd | src/pages/Journal.tsx:61 | removes exactly the trailing white space, in the same terms |
| Text.IsBlank | src/pages/ChatFriend.tsx:54 | `!s.trim()` holds exactly when every character is white space, the empty string included |
| Text.NotBlank | src/pages/ChatFriend.tsx:54 | text whose first character is not white space passes the `trim` guard |
| Canvas.ToLocal | src/pages/CreativeSpace.tsx:57-58 | the local point plus the bounding rectangle's origin gives back the viewport point |
| Canvas.Resized | src/pages/ScratchGame.tsx:39-40 | assigning the canvas size gives a transparent bitmap of that size, with the context back at source-over |
| Canvas.FilledWith | src/pages/CreativeSpace.tsx:104-105 | a full-canvas `fillRect` erases everything drawn before; the canvas is covered by the paint only under source-over, and is left transparent under destination-out |
| Canvas.WithText | src/pages/ScratchGame.tsx:55-56 | `fillText` adds exactly one mark and keeps the backdrop |
| Canvas.Stroked | src/pages/CreativeSpace.tsx:87-90 | a stroked path adds exactly one segment mark and keeps the backdrop; its operator stays the context's operator |
| Canvas.ErasedDisc | src/pages/ScratchGame.tsx:77-80 | a filled arc under destination-out adds exactly one erased disc and keeps the backdrop |
| ScratchGame.RewardAmounts | src/pages/ScratchGame.tsx:8-15 | every reward in the table credits 10, 25, 50, 5, 1 or 100 coins, always a positive amount |
| ScratchGame.InitializeCanvas | src/pages/ScratchGame.tsx:33-57 | without a context nothing changes; otherwise the canvas is 200 by 150 and shows exactly the silver overlay and its two label lines, whatever was scratched off before |
| ScratchGame.Reinitialized | src/pages/ScratchGame.tsx:118-122 | an attached canvas is initialised again and an empty slot stays empty |
| ScratchGame.NoneScratched | src/pages/ScratchGame.tsx:227 | `every(card => !card)` holds exactly when no card is scratched |
| ScratchGame.ScratchBoard.constructor | src/pages/ScratchGame.tsx:27-31 | 245 coins, six hidden cards without rewards, no card pressed, no canvas attached |
| ScratchGame.ScratchBoard.AttachCanvas | src/pages/ScratchGame.tsx:191-196 | the ref callback stores the element; only an unscratched card's canvas is initialised, and the other slots are unchanged |
| ScratchGame.ScratchBoard.StartScratching | src/pages/ScratchGame.tsx:59-62 | mouse-down on a scratched card changes nothing; otherwise that card becomes the pressed card; coins and cards are unchanged |
| ScratchGame.ScratchBoard.Scratch | src/pages/ScratchGame.tsx:64-80 | only while card `i` is pressed and unscratched, and has a canvas with a context, a disc of radius 20 around the local point is erased from card `i`'s canvas; no other canvas changes |
| ScratchGame.ScratchBoard.FinishScratching | src/pages/ScratchGame.tsx:83-99 | a scratched card changes nothing; otherwise card `i` alone becomes scratched and gets the drawn reward, the total grows by that reward's amount, and no card is pressed |
| ScratchGame.ScratchBoard.EndScratchGesture | src/pages/ScratchGame.tsx:200-201 | mouse-up and mouse-leave reveal a card only when it is the pressed card, however little was scratched; otherwise nothing changes |
| ScratchGame.ScratchBoard.ResetGame | src/pages/ScratchGame.tsx:112-122 | all six cards hidden without rewards, none pressed, coins kept, and every attached canvas initialised again, with the board invariant kept |
| ScratchGame.ScratchBoard.NewCardsEnabled | src/pages/ScratchGame.tsx:227 | "New Cards" is enabled exactly when some card is scratched |
| ScratchGame.ScratchOneCard | src/pages/ScratchGame.tsx:198-201 | press, scratch and release on one card reveals that card alone and credits one of the table's amounts |
| ScratchGame.ReleaseWithoutPress | src/pages/ScratchGame.tsx:200 | releasing a card that was never pressed reveals nothing and credits nothing |
| ScratchGame.RevealAllThenReset | src/pages/ScratchGame.tsx:112-115 | after all six cards are revealed, "New Cards" hides them all and keeps the coins they credited |
| CreativeSpace.Mounted | src/pages/CreativeSpace.tsx:39-46 | on mount the bitmap takes the element's size, truncated to whole pixels, and shows plain white |
| CreativeSpace.Segment | src/pages/CreativeSpace.tsx:76-90 | a segment from the last point to the new one, `brushSize` wide with round cap and join; the eraser uses destination-out and ignores the colour, the pen uses source-over in the current colour |
| CreativeSpace.ClearAsWritten | src/pages/CreativeSpace.tsx:99-105 | the Clear button as written: white only if the operator is source-over, transparent otherwise |
| CreativeSpace.Cleared | src/pages/CreativeSpace.tsx:99-105 | the intended Clear: at the same size, the canvas shows the white page it showed after mounting, whatever was drawn or erased before |
| CreativeSpace.ClearAsWrittenMissesWhiteAfterErasing | src/pages/CreativeSpace.tsx:81 | the written and the intended Clear give the same picture exactly when the last stroke was not an eraser stroke |
| CreativeSpace.DrawingBoard.constructor | src/pages/CreativeSpace.tsx:26-47 | pen up, black, size 5, pen tool; a canvas with a context is sized to its element and white, any other canvas is left as it is |
| CreativeSpace.DrawingBoard.StartDrawing | src/pages/CreativeSpace.tsx:49-60 | the pen goes down even without a canvas; the last point becomes the local point only when there is a canvas to measure |
| CreativeSpace.DrawingBoard.Draw | src/pages/CreativeSpace.tsx:62-93 | with the pen up or without a canvas, nothing changes; otherwise exactly one `Segment` is added over what the canvas showed, the size is kept, and the new point becomes the last point |
| CreativeSpace.DrawingBoard.StopDrawing | src/pages/CreativeSpace.tsx:95-97 | the pen is up and nothing else changes, so a second call changes nothing |
| CreativeSpace.DrawingBoard.ClearCanvasAsWritten | src/pages/CreativeSpace.tsx:99-107 | the Clear button as written, on the page's canvas |
| CreativeSpace.DrawingBoard.ClearCanvas | src/pages/CreativeSpace.tsx:99-107 | without a canvas nothing changes; otherwise the canvas shows the mounted white page at its unchanged size; no pen or tool state changes |
| CreativeSpace.DrawingBoard.SelectColor | src/pages/CreativeSpace.tsx:163-166 | a swatch sets the pen colour and leaves erase mode |
| CreativeSpace.DrawingBoard.SelectBrushSize | src/pages/CreativeSpace.tsx:182 | the brush size becomes the chosen one of 2, 5, 10, 15 and 20 |
| CreativeSpace.DrawingBoard.SelectTool | src/pages/CreativeSpace.tsx:195-204 | the Draw and Erase buttons set erase mode and nothing else |
| CreativeSpace.DrawingBoard.Dispatch | src/pages/CreativeSpace.tsx:240-249 | mouse-up, mouse-leave and touch-end all lift the pen; a press starts drawing; a move with the pen down on a canvas with a context strokes exactly one `Segment` from the last point to the local point, which becomes the last point; any other move changes nothing |
| CreativeSpace.MoveWithoutPress | src/pages/CreativeSpace.tsx:62-63 | moving the mouse without a press leaves the canvas white as mounted |
| CreativeSpace.DrawEraseClear | src/pages/CreativeSpace.tsx:99-105 | after drawing and erasing, the intended Clear gives the white page at the mounted size |
| CreativeSpace.EraseThenClearAsWritten | src/pages/CreativeSpace.tsx:80-81 | after an eraser stroke, the Clear button as written leaves a transparent canvas, not a white one |
| RelaxGames.Tick | src/pages/RelaxGames.tsx:25-38 | above 1 the count goes down by one in the same phase; at 1 the next phase starts at 4; a count within 1..4 stays within 1..4 |
| RelaxGames.TicksAdd | src/pages/RelaxGames.tsx:24-40 | `m + n` seconds of breathing are `m` seconds followed by `n` seconds |
| RelaxGames.TicksStayInPhase | src/pages/RelaxGames.tsx:25-38 | however long a session runs, the count stays within 1..4 |
| RelaxGames.CountdownWithinPhase | src/pages/RelaxGames.tsx:38 | within a phase the count drops by one per second |
| RelaxGames.PhaseEnds | src/pages/RelaxGames.tsx:26-36 | a countdown at `c` ends after exactly `c` seconds, in the next phase at a full count |
| RelaxGames.BreathCycle | src/pages/RelaxGames.tsx:25-38 | twelve seconds bring the bubble back to the same phase and count |
| RelaxGames.PaletteDistinct | src/pages/RelaxGames.tsx:16-20 | the palette has nine different colours |
| RelaxGames.TherapyColors | src/pages/RelaxGames.tsx:57-60 | `generateColors` shows six different palette colours |
| RelaxGames.FlowerCount | src/pages/RelaxGames.tsx:231 | one flower per full 20 points |
| RelaxGames.MomentCount | src/pages/RelaxGames.tsx:278 | one mindful moment per full 5 points |
| RelaxGames.FlowersGrow | src/pages/RelaxGames.tsx:231 | more points never mean fewer flowers or moments, and every 20 points add a flower |
| RelaxGames.RelaxPage.constructor | src/pages/RelaxGames.tsx:8-14 | inhale at 4, not breathing, no colours, no selection, no bubbles, no points |
| RelaxGames.RelaxPage.BreathingTick | src/pages/RelaxGames.tsx:22-44 | one firing of the interval, which runs only during a session, advances the bubble by `Tick` and changes nothing else |
| RelaxGames.RelaxPage.StartBreathing | src/pages/RelaxGames.tsx:46-50 | a session always starts inhaling at a count of 4 |
| RelaxGames.RelaxPage.StopBreathing | src/pages/RelaxGames.tsx:52-55 | the session stops and earns exactly 10 points; the bubble keeps its phase and count |
| RelaxGames.RelaxPage.BreathingButton | src/pages/RelaxGames.tsx:129 | the one button toggles the session: stopping earns 10 points, starting resets the bubble |
| RelaxGames.RelaxPage.GenerateColors | src/pages/RelaxGames.tsx:57-60 | the grid becomes the first six palette colours in the random order; the chosen colour and the points are kept |
| RelaxGames.RelaxPage.SelectColor | src/pages/RelaxGames.tsx:62-65 | a grid colour becomes the chosen colour and earns exactly 5 points, on every choice |
| RelaxGames.RelaxPage.CreateBubble | src/pages/RelaxGames.tsx:67-70 | offered below ten bubbles: one bubble more, 3 points, and one more fade timer pending |
| RelaxGames.RelaxPage.FadeBubble | src/pages/RelaxGames.tsx:70 | a fade timer removes exactly one bubble and one pending fade: since each timer belongs to a shown bubble, the source's floor at zero never decides the result |
| RelaxGames.RelaxPage.TapZenSquare | src/pages/RelaxGames.tsx:256 | a zen square earns exactly 2 points |
| RelaxGames.RelaxPage.AddMindfulMoment | src/pages/RelaxGames.tsx:285 | earns exactly 5 points, so the mindful counter goes up by one |
| RelaxGames.BreatheFor | src/pages/RelaxGames.tsx:22-50 | a session running for `n` seconds shows `Ticks(FirstBreath, n)`, within 1..4, and is back at a full inhale after whole breaths |
| RelaxGames.WholeBreaths | src/pages/RelaxGames.tsx:25-38 | whole twelve-second breaths bring a fresh session back to a full inhale |
| MoodTracker.MoodValues | src/pages/MoodTracker.tsx:9-16 | the options carry exactly the values 1..6 |
| MoodTracker.FindByValue | src/pages/MoodTracker.tsx:56 | `find` returns the first option with the value, or nothing exactly when no option has it |
| MoodTracker.SelectedMoodInfo | src/pages/MoodTracker.tsx:56 | a selection of 1..6 shows the option with that value; no selection shows none |
| MoodTracker.Slide | src/pages/MoodTracker.tsx:47 | the oldest day drops out, the others move up one, and the new day is last; the length is kept |
| MoodTracker.SlideAllKeepsLatest | src/pages/MoodTracker.tsx:47 | after any saves the window is the last seven of the initial week followed by every saved day |
| MoodTracker.SlideAllSnoc | src/pages/MoodTracker.tsx:47-48 | one more save slides the window once more |
| MoodTracker.TotalBounds | src/pages/MoodTracker.tsx:57 | moods in 1..6 over `n` days sum to between `n` and `6n` |
| MoodTracker.AverageMood | src/pages/MoodTracker.tsx:57 | the average times the number of days is the sum of the moods |
| MoodTracker.AverageOnScale | src/pages/MoodTracker.tsx:57 | with every mood from the options, the average lies within 1..6 |
| MoodTracker.MoodTrackerPage.constructor | src/pages/MoodTracker.tsx:27-37 | no selection, the fixed initial week, a streak of 7 |
| MoodTracker.MoodTrackerPage.HandleMoodSelect | src/pages/MoodTracker.tsx:39-41 | an option's value becomes the selection; the week and the streak are kept |
| MoodTracker.MoodTrackerPage.SaveMood | src/pages/MoodTracker.tsx:43-54 | without a selection nothing changes; otherwise the window slides to end in today's mood, the streak grows by exactly one and the selection is cleared; the window stays seven days of moods in 1..6 |
| MoodTracker.MoodTrackerPage.Average | src/pages/MoodTracker.tsx:57 | the shown average is the sum of the seven moods over seven, within 1..6 |
| MoodTracker.TrackWeek | src/pages/MoodTracker.tsx:43-54 | seven saves leave exactly the seven saved days in the window and add seven to the streak |
| Affirmations.AffirmationsDistinct | src/pages/Affirmations.tsx:8-49 | the forty affirmations are all different |
| Affirmations.FirstTen | src/pages/Affirmations.tsx:60-62 | loading shows ten different affirmations from the list |
| Affirmations.Without | src/pages/Affirmations.tsx:72 | `filter(fav => fav !== a)` removes every occurrence of `a` and keeps every other entry |
| Affirmations.WithoutConcat | src/pages/Affirmations.tsx:72 | the filter works piecewise, so the remaining entries keep their order |
| Affirmations.WithoutOne | src/pages/Affirmations.tsx:71-73 | removing from a duplicate-free list takes out just that entry and leaves the rest in place |
| Affirmations.WithoutKeepsDistinct | src/pages/Affirmations.tsx:71-73 | removing keeps the favourites duplicate-free |
| Affirmations.Added | src/pages/Affirmations.tsx:65-69 | a favourite already there changes nothing; a new one is appended at the end; the list stays duplicate-free |
| Affirmations.Toggled | src/pages/Affirmations.tsx:136 | the star flips the affirmation's membership, leaves every other affirmation's membership alone, and keeps the list duplicate-free |
| Affirmations.ToggleTwice | src/pages/Affirmations.tsx:136 | starring a new affirmation and unstarring it gives back the same list in the same order |
| Affirmations.AffirmationsPage.Displayed | src/pages/Affirmations.tsx:124 | the cards on show never repeat and all come from the list of forty; outside the favourites view there are ten of them |
| Affirmations.AffirmationsPage.IsFavorite | src/pages/Affirmations.tsx:71-77 | the heart is filled exactly when `removeFromFavorites` would change the favourites |
| Affirmations.AffirmationsPage.constructor | src/pages/Affirmations.tsx:52-58 | the mount effect loads ten affirmations; no favourites; the all view |
| Affirmations.AffirmationsPage.LoadNewAffirmations | src/pages/Affirmations.tsx:60-63 | ten new affirmations from a new order; favourites kept |
| Affirmations.AffirmationsPage.AddToFavorites | src/pages/Affirmations.tsx:65-69 | the favourites become `Added(favourites, a)` and stay duplicate-free |
| Affirmations.AffirmationsPage.RemoveFromFavorites | src/pages/Affirmations.tsx:71-73 | the favourites become `Without(favourites, a)` and stay duplicate-free |
| Affirmations.AffirmationsPage.ToggleFavorite | src/pages/Affirmations.tsx:136 | the star on a card on show makes the favourites `Toggled(favourites, a)`: that card's heart flips and every other card's heart stays as it was |
| Affirmations.AffirmationsPage.ToggleShowFavorites | src/pages/Affirmations.tsx:110 | the switch flips the view and changes no list |
| Affirmations.StarThreeUnstarOne | src/pages/Affirmations.tsx:136 | starring three cards and unstarring the middle one leaves the other two, in the order they were starred |
| Affirmations.StarOne | src/pages/Affirmations.tsx:136 | the star on a card that is not a favourite appends it to the favourites and leaves the ten on show alone |
| Affirmations.StarThree | src/pages/Affirmations.tsx:136 | three different cards starred from no favourites become the favourites in the order starred |
| Journal.DateHeader | src/pages/Journal.tsx:99 | the header is "Today is ", the date, then ".\n\n" |
| Journal.Preview | src/pages/Journal.tsx:244 | the first five entries, or all of them when there are fewer |
| Journal.MoreCount | src/pages/Journal.tsx:268-271 | the "more entries" line appears exactly beyond five entries, and its count plus the preview covers every entry |
| Journal.Excerpt | src/pages/Journal.tsx:261-264 | text up to 200 characters is shown unchanged; longer text is shown as its first 200 characters followed by "..." |
| Journal.ExcerptBounds | src/pages/Journal.tsx:261-264 | no excerpt is longer than 203 characters, and every excerpt begins like its entry |
| Journal.JournalPage.constructor | src/pages/Journal.tsx:39-58 | the stored entries are loaded; the editor is closed and empty |
| Journal.JournalPage.SaveEntry | src/pages/Journal.tsx:60-82 | blank text changes nothing; otherwise the text becomes the newest entry in front of the others, the count grows by one, and the editor closes empty |
| Journal.JournalPage.UsePrompt | src/pages/Journal.tsx:84-88 | the editor opens with the prompt followed by a space |
| Journal.JournalPage.StartWriting | src/pages/Journal.tsx:90-101 | the editor opens; the date header is written only when there is neither text nor a prompt; otherwise the text is unchanged |
| Journal.JournalPage.EditText | src/pages/Journal.tsx:198-199 | typing replaces the editor text |
| Journal.JournalPage.Cancel | src/pages/Journal.tsx:211-215 | the editor closes empty and the entries are unchanged |
| Journal.JournalPage.SaveEnabled | src/pages/Journal.tsx:222 | Save is enabled exactly when the text has a character other than white space |
| Journal.StartWritingFresh | src/pages/Journal.tsx:90-101 | on a fresh page "Start Writing" always shows the date header |
| Journal.WriteEntry | src/pages/Journal.tsx:60-101 | writing a text that does not start with white space and saving it makes it the newest entry and closes the editor |
| Journal.WriteTwo | src/pages/Journal.tsx:60-82 | two saved entries are listed newest first in front of the stored ones, and the "more" count follows |
| Journal.SaveBlank | src/pages/Journal.tsx:60-61 | saving only white space adds no entry and leaves the editor open with its text |
| ChatFriend.ChatPage.constructor | src/pages/ChatFriend.tsx:34-43 | the log holds only the welcome message with id 1; empty input; not typing |
| ChatFriend.ChatPage.SendEnabled | src/pages/ChatFriend.tsx:176 | Send is enabled exactly when the input has a non-white character and no reply is being typed |
| ChatFriend.ChatPage.SendMessage | src/pages/ChatFriend.tsx:53-79 | blank input changes nothing; otherwise the untrimmed input is appended with id = length + 1, the input clears, typing starts, and a reply with id = length + 2 is scheduled; the log only grows |
| ChatFriend.ChatPage.ClickSend | src/pages/ChatFriend.tsx:175-176 | a click on the enabled button sends, and the chat stays orderly |
| ChatFriend.ChatPage.HandleKeyPressAsWritten | src/pages/ChatFriend.tsx:81-85 | Enter on non-blank input sends even while a reply is being typed: the message is appended, the input clears, the indicator goes on and one more reply is scheduled; other keys, and Enter on blank input, change nothing |
| ChatFriend.ChatPage.HandleKeyPress | src/pages/ChatFriend.tsx:81-85 | the intended Enter: it sends exactly when Send is enabled, and the chat stays orderly |
| ChatFriend.ChatPage.DeliverReply | src/pages/ChatFriend.tsx:68-78 | a firing reply timer appends one canned response with the id fixed when it was scheduled, and typing stops; the chat stays orderly |
| ChatFriend.ChatPage.SetInput | src/pages/ChatFriend.tsx:169 | typing replaces the input and nothing else |
| ChatFriend.ChatPage.UseQuickPrompt | src/pages/ChatFriend.tsx:194-216 | a quick-support button fills the input with its sentence and sends nothing |
| ChatFriend.ChatPage.Ids | src/pages/ChatFriend.tsx:128 | the React keys of the rendered log; in an orderly chat they are 1, 2, 3, ..., so no two messages share a key |
| ChatFriend.TypeAndEnterAsWritten | src/pages/ChatFriend.tsx:81-85 | typing text that starts with a non-white character and pressing Enter appends it as the user's message with id length + 1 and schedules one more reply with id length + 2, typing or not |
| ChatFriend.TypeAndEnter | src/pages/ChatFriend.tsx:176 | the same with Enter guarded like Send, while no reply is due: the message is appended, the one pending reply takes the next position, and the chat stays orderly |
| ChatFriend.SendTwiceAsWritten | src/pages/ChatFriend.tsx:81-85 | "hello", Enter, "are you there?", Enter before any reply: the second message gets id 3 and replies 3 and 4 are pending |
| ChatFriend.SendTwice | src/pages/ChatFriend.tsx:176 | the same keystrokes with Enter guarded: only "hello" is sent, reply 3 is pending and the second text stays in the input |
| ChatFriend.EnterWhileTypingAsWritten | src/pages/ChatFriend.tsx:81-85 | two Enters before the first reply make the rendered keys 1, 2, 3, 3, 4: the second user message and the first reply share key 3 |
| ChatFriend.EnterWhileTyping | src/pages/ChatFriend.tsx:176 | with Enter guarded like Send, the second Enter is ignored, its text stays in the input, and the keys are 1, 2, 3 |
| Emergency.Offered | src/pages/Emergency.tsx:114-136 | Previous is shown above step 1; Next below step 3; Repeat in Next's place from step 3 |
| Emergency.Press | src/pages/Emergency.tsx:117-131 | Previous subtracts one, Next adds one, Repeat returns to step 1; a step in 1..3 stays in 1..3 |
| Emergency.EveryStepReachable | src/pages/Emergency.tsx:114-136 | from any step, some sequence of shown buttons reaches any other step |
| Emergency.EmergencyPage.constructor | src/pages/Emergency.tsx:54-55 | no exercise and step 0 |
| Emergency.EmergencyPage.StartBreathingExercise | src/pages/Emergency.tsx:69-73 | the breathing guide opens at step 1 |
| Emergency.EmergencyPage.StartNow | src/pages/Emergency.tsx:282-288 | "Start Now", shown only while no exercise is open: breathing opens the guide at step 1; grounding opens the grounding exercise with the step untouched; self-care changes no state |
| Emergency.EmergencyPage.PressStep | src/pages/Emergency.tsx:114-136 | a shown step button moves the step as `Press` says, and the guide stays open within 1..3 |
| Emergency.EmergencyPage.FeelBetter | src/pages/Emergency.tsx:139-144 | "I Feel Better Now" closes the guide and sets the step to 0 |
| Emergency.EmergencyPage.LeaveGrounding | src/pages/Emergency.tsx:193 | "I Feel More Grounded" closes the exercise and leaves the step untouched |
| Emergency.FollowGuide | src/pages/Emergency.tsx:114-136 | pressing any sequence of shown buttons walks the step as `Walk` says, and the step never leaves 1..3 |

## Left out

- Pixels are not modelled. The model does not cover the overlay's gradient
  colours, glyph shapes, arc and line rasterisation, antialiasing, or what a
  round cap covers. A canvas is a log of operations, and `Render` records only
  whether a full-canvas fill covered or cleared the bitmap.
- A canvas size is the CSS width truncated to a whole number. JavaScript
  converts an assigned width with `ToUint32`, which wraps around modulo 2^32,
  and the canvas's `width` and `height` attributes then fall back to their
  defaults for any value above 2^31 - 1. So sizes of 2^31 pixels and more
  become the default 300×150, which the model does not include, since
  elements of such sizes do not occur.
- `saveArtwork` is left out. It is browser I/O: a data URL, an anchor-click
  download and a clock-based file name.
- `localStorage` reads and writes, and `JSON.parse`, are left out. The journal's
  stored entries are the constructor's `saved` parameter. A failed parse, which
  the source logs and skips, becomes an empty `saved`.
- Dates and clocks are left out: `Date.now()` ids, `toLocaleDateString`,
  `toLocaleTimeString` and weekday names. They are parameters (`id`, `date`,
  `today`). The journal entry's and the chat message's `timestamp` fields, and
  the journal entry's unused `mood` field, are not modelled.
- Toast notifications and the encouraging messages drawn for them are left
  out. They change no page state.
- Timer scheduling is not modelled. Each callback is a step method that may
  run at any time its timer is pending: `BreathingTick` while a session runs,
  `FadeBubble` once per created bubble, and `DeliverReply` once per send. The
  1 s interval, the 3 s fade, and the 1-3 s reply delay are not modelled.
- Random draws are parameters. A single pick is an index. The shuffle by
  `sort(() => Math.random() - 0.5)` is an arbitrary order of the table's
  indices. The model does not capture how likely each order is. The bubble
  garden's random positions are not modelled.
- `averageMood.toFixed(1)` is left out: the average is an exact rational. The
  recharts chart is left out too, since it only draws `moodData`.
- `callEmergencyContact` is left out. It is browser I/O: `window.confirm` and a
  `tel:` navigation. The crisis-page redirects through `window.location.href`
  are left out for the same reason.
- src/pages/Home.tsx, src/components/Navigation.tsx and src/App.tsx are not
  part of this model. They hold presentation, a splash timer, a menu toggle and
  routing.
- React re-rendering is not modelled. Each handler is one atomic step on the
  current state. The scratch cards' ref callbacks, which React calls again on
  re-renders, are modelled as `AttachCanvas`, called whenever a card's element
  is (re)attached.
- In the source, `canvasRefs.current` starts empty and gains an entry as each
  card mounts. The model has six slots from the start, each initially empty.
- Journal.Excerpt: JavaScript counts string length and `substring` in UTF-16
  code units, so an emoji counts as two. A Dafny `char` here is a Unicode
  scalar value, so the model counts an emoji as one. Text outside the Basic
  Multilingual Plane (emoji and other characters above U+FFFF) is therefore
  cut at a different place than in the app. For example, 150 "😊" are 300
  code units: the app shows 100 of them and "...", while the model keeps all
  150.
- Emergency.EmergencyPage.StartNow: `requires` no exercise open. The source's
  grounding action would keep a leftover step if it ran while the guide was
  open, but its button is shown only when no exercise is.

## Findings

| source | as written | input that shows it | evidently intended | confidence | as-written member | corrected member |
|---|---|---|---|---|---|---|
| src/pages/CreativeSpace.tsx:99-105 | Clear fills white under whatever `globalCompositeOperation` the context holds; after an eraser stroke (line 81) that is destination-out, so the fill erases every pixel | Erase tool, one stroke, then Clear: the canvas bitmap is transparent, not white. On screen it still looks white, because the canvas sits in a `bg-white` container (line 236); the transparency shows in the PNG that Save Art exports | set the operator back to source-over before the white fill, so Clear always gives the white page | not executed | CreativeSpace.EraseThenClearAsWritten | CreativeSpace.Cleared |
| src/pages/ChatFriend.tsx:81-85 | Enter calls `sendMessage` without the `isTyping` check the Send button has (line 176) | type "hello", Enter, type "are you there?", Enter before the reply arrives: the second message gets id 3, the id the pending reply was promised, and the ids end as 1, 2, 3, 3, 4 | Enter is ignored while a reply is being typed, as the button is, so ids stay the log positions and the React keys (line 128) stay unique | not executed | ChatFriend.EnterWhileTypingAsWritten | ChatFriend.ChatPage.HandleKeyPress |
