# Portfolio site: verified model of its interactive logic

This project models, in Dafny, the state logic of a personal portfolio web site (Next.js and
React). Each module follows one source file, except PuzzleBoard and SlidingPuzzle, which hold
the logic the two puzzle components share, and two small shared modules: Wrappers (an
`Option` type) and Geometry (a bounding rectangle and `Math.max`, `Math.min`, `Math.abs`):

- **PuzzleBoard** holds the 3x3 sliding puzzle's board logic. It covers valid moves, the swap, the shuffle by random valid moves, the win test and the `m:ss` timer text.
- **SlidingPuzzle.Game** holds the puzzle's state machine: initialise, tile click and timer tick.
- **MiniPuzzle** is the modal puzzle. It reshuffles with 100 moves each time it opens.
- **EmbeddedPuzzle** is the in-page puzzle. It shuffles with 50 moves, only on its first activation.
- **HomePage** is the home page. It picks the most visible section, asks the project viewer to close when the projects section is left, and opens and closes the viewer.
- **TopNavigation** is the header. It hides the header on scroll, closes the mobile menu, selects the active tab and maps themes to hues. It also asks phone users once for their handedness.
- **HobbiesScroll** models the hobbies section's scroll hook. It computes progress, opacity and the current chapter, and toggles the puzzle tiles with a `puzzleTilesToggle` event.
- **ProjectViewer** is the project panel. It covers the image carousel, the animated close and the animated project swap.
- **AIAssistant** is the scripted chat. It covers the greeting, blank-input rejection, the starter lookup, the fallback answer and the character-by-character typing.
- **ContactForm** is the contact form hook. It covers field edits and the submit outcome: success, server error or thrown error.
- **Hero** is the hero typewriter. It covers the token stepper and its delays, the easter egg that starts the cube, and the token styles.
- **Skills** holds the skill cards' proficiency label and dot colour.

React state becomes class fields. Each setter call becomes an assignment in a method. Each
`setTimeout` or interval callback becomes its own method, called when the timer fires.

Inputs from outside the code become parameters:
- `Math.random()` values: `choices: seq<real>`, each in [0, 1).
- `Date.now()`: `now` and `later`.
- DOM measurements: `Rect`, `Offset` and chapter tops, with `None` for a missing element.
- `window.innerWidth`, `window.innerHeight` and `window.scrollY`: real or integer parameters.
- `localStorage`: a `map<string, string>` field.
- The settled `fetch`: a `FetchOutcome` value.

## Model

| member | source | states |
|---|---|---|
| PuzzleBoard.ValidMoves | src/components/MiniPuzzleGame.tsx:59-70 | a cell is in the result iff it is an in-grid orthogonal neighbour of the empty cell; 2 to 4 moves, no duplicates |
| PuzzleBoard.AdjacentSymmetric | src/components/MiniPuzzleGame.tsx:59-70 | the neighbour relation behind getValidMoves is symmetric, so a move can be undone |
| PuzzleBoard.IndexOf | src/components/MiniPuzzleGame.tsx:51 | indexOf: the result holds x and no earlier position does (or it is the length when x is absent) |
| PuzzleBoard.EmptyIndex | src/components/MiniPuzzleGame.tsx:75 | on a board, the index found holds 0 and is the only cell that does |
| PuzzleBoard.Swap | src/components/MiniPuzzleGame.tsx:54 | the destructuring swap exchanges the two cells, keeps every other cell and permutes the contents |
| PuzzleBoard.SwapKeepsBoard | src/components/MiniPuzzleGame.tsx:54 | swapping two cells of a board yields a board (nine distinct values 0..8) |
| PuzzleBoard.ValidMoveIsLegal | src/components/MiniPuzzleGame.tsx:75-80 | trading the empty cell with one of its valid moves is a legal move to a board |
| PuzzleBoard.LegalMoveReversible | src/components/MiniPuzzleGame.tsx:49 | every legal move can be undone by a legal move back |
| PuzzleBoard.PathBoards | src/components/MiniPuzzleGame.tsx:49 | every board along a path of legal moves is a board |
| PuzzleBoard.ReversePath | src/components/MiniPuzzleGame.tsx:49 | a path of legal moves walked backwards is again a path of legal moves |
| PuzzleBoard.Pick | src/components/MiniPuzzleGame.tsx:53 | Math.floor(Math.random() * length) is a valid index into the move list |
| PuzzleBoard.ShuffleStep | src/components/MiniPuzzleGame.tsx:51-54 | one loop iteration is a legal move and yields a board |
| PuzzleBoard.Shuffled | src/components/MiniPuzzleGame.tsx:47-57 | the shuffle of a board is a board |
| PuzzleBoard.ShuffleTraceIsPath | src/components/MiniPuzzleGame.tsx:47-57 | the boards a shuffle passes through form a path of legal moves from the start to the result |
| PuzzleBoard.ShuffledIsSolvable | src/components/MiniPuzzleGame.tsx:47-57 | as the comment at line 49 promises, a shuffle of the solved board can be solved, and it permutes the tiles |
| PuzzleBoard.ShuffledPermutes | src/components/MiniPuzzleGame.tsx:47-57 | shuffling keeps the multiset of tiles |
| PuzzleBoard.ShuffledSnoc | src/components/MiniPuzzleGame.tsx:50-55 | one more loop iteration is one more shuffle step |
| PuzzleBoard.ShuffleStepInPlace | src/components/MiniPuzzleGame.tsx:51-54 | the in-place array swap leaves the array equal to ShuffleStep of its old contents |
| PuzzleBoard.ShuffleInPlace | src/components/MiniPuzzleGame.tsx:47-57 | the loop leaves the array equal to Shuffled of its old contents, one step per random value |
| PuzzleBoard.IsWin | src/components/MiniPuzzleGame.tsx:85 | the win test: every cell idx holds (idx + 1) % 9 (its meaning on boards is WinIffSolved) |
| PuzzleBoard.WinIffSolved | src/components/MiniPuzzleGame.tsx:85 | the win test `tile === (idx + 1) % 9` holds on nine cells exactly for [1..8, 0] |
| PuzzleBoard.NatToString | src/components/MiniPuzzleGame.tsx:95 | the decimal text is non-empty digits, one digit exactly below 10 and at most two below 100 |
| PuzzleBoard.DecimalValueOfNatToString | src/components/MiniPuzzleGame.tsx:95 | reading the decimal text back gives the number |
| PuzzleBoard.PadStart2 | src/components/MiniPuzzleGame.tsx:95 | padStart(2, '0') keeps the text as its suffix, fills with '0' and reaches length 2 |
| PuzzleBoard.PaddedValue | src/components/MiniPuzzleGame.tsx:95 | padding one or two digits keeps their value |
| PuzzleBoard.ColonSplit | src/components/MiniPuzzleGame.tsx:95 | in digits + ':' + rest, the first colon sits just after the digits |
| PuzzleBoard.FormatTime | src/components/MiniPuzzleGame.tsx:92-96 | the text is minutes in digits, a colon, then exactly two digits of seconds |
| PuzzleBoard.FormatTimeRoundTrip | src/components/MiniPuzzleGame.tsx:92-96 | formatTime loses nothing: `m:ss` parses back to the number of seconds |
| SlidingPuzzle.Game.constructor | src/components/MiniPuzzleGame.tsx:11-15 | the initial state: no tiles, no moves, not complete, no time |
| SlidingPuzzle.Game.InitializePuzzle | src/components/MiniPuzzleGame.tsx:37-45 | the tiles become the solved board shuffled by the random values; moves and time reset, not complete |
| SlidingPuzzle.Game.HandleTileClick | src/components/MiniPuzzleGame.tsx:72-90 | ignored when complete or not a valid move; otherwise a legal swap, one more move, complete iff the win test holds |
| SlidingPuzzle.Game.TimerTick | src/components/MiniPuzzleGame.tsx:27-35 | the elapsed time is the whole seconds since the start |
| MiniPuzzle.MiniPuzzleGame.constructor | src/components/MiniPuzzleGame.tsx:11-15 | a fresh game with no tiles, no moves and not complete |
| MiniPuzzle.MiniPuzzleGame.OpenChanged | src/components/MiniPuzzleGame.tsx:19-24 | opening reinitialises with a 100-move shuffle and sets the start time; closing changes nothing |
| EmbeddedPuzzle.EmbeddedPuzzleGame.constructor | src/components/EmbeddedPuzzleGame.tsx:11-16 | a fresh game with no tiles, no moves, not complete and not yet initialised |
| EmbeddedPuzzle.EmbeddedPuzzleGame.ActivationEffect | src/components/EmbeddedPuzzleGame.tsx:22-28 | only the first activation initialises (with a 50-move shuffle) and starts the clock; the flag then stays set |
| HomePage.VisibleTop | src/app/page.tsx:61 | the visible part lies between 0 and the element's height and never exceeds the window |
| HomePage.VisibilityRatio | src/app/page.tsx:62 | the ratio is in [0, 1] and times the height gives the visible part |
| HomePage.CenterWeight | src/app/page.tsx:65-66 | the weight is in [0, 1] and is 1 exactly when the element is centred |
| HomePage.Score | src/app/page.tsx:68 | the score is in [0, 1] and is 1 exactly when the element is fully visible and centred |
| HomePage.ScoreAt | src/app/page.tsx:52-58 | a missing element or one of height 0 scores 0, so it never beats the initial maximum |
| HomePage.MostVisibleSection | src/app/page.tsx:49-75 | 'hero' when no score exceeds 0, otherwise the highest-scoring section, the first among ties |
| HomePage.FirstBestUnique | src/app/page.tsx:70-73 | only one section can be the first one with the highest score |
| HomePage.ActiveSectionUnique | src/app/page.tsx:49-75 | the selection rule picks exactly one id for given measurements |
| HomePage.ActiveSectionListed | src/app/page.tsx:95-102 | the selected id is one of the page's sections |
| HomePage.Home.ViewerRendered | src/app/page.tsx:128-135 | the project viewer is in the page exactly while a project is selected |
| HomePage.Home.constructor | src/app/page.tsx:13-31 | the cube starts hidden, 'hero' is current and no project is selected |
| HomePage.Home.OpenProjectViewer | src/app/page.tsx:33-36 | the project is selected and the viewer is open |
| HomePage.Home.CloseProjectViewer | src/app/page.tsx:38-41 | the viewer is closed and nothing is selected, so it is unmounted |
| HomePage.Home.HandleScroll | src/app/page.tsx:45-86 | the cube is shown, the current section follows the selection rule, and a close is requested iff the winner is not 'projects' while the viewer is open |
| TopNavigation.FirstContainingSection | src/components/TopNavigation.tsx:75-87 | the first present section whose box contains the position, or none when no section does |
| TopNavigation.ThemeHue | src/components/TopNavigation.tsx:354-360 | hues lie in [0, 360), and 220 is given exactly to names outside the six coloured themes |
| TopNavigation.ThemeHueInjective | src/components/TopNavigation.tsx:341-360 | the picker's seven themes get seven different hues |
| TopNavigation.SecondaryHue | src/components/TopNavigation.tsx:367-368 | primary + 60 with no wrap: for a non-negative primary it stays below 360 iff the primary is below 300 |
| TopNavigation.SecondaryHueRange | src/components/TopNavigation.tsx:367-368 | the secondary hue is the primary plus 60 with no wrap: only pink leaves [0, 360), at 380 |
| TopNavigation.HandednessOf | src/components/TopNavigation.tsx:603-633 | only Left stores "left"; Right and Skip both store "right" |
| TopNavigation.Navigation.constructor | src/components/TopNavigation.tsx:11-25 | the initial state: 'hero' tab, header shown, default theme, no handedness |
| TopNavigation.Navigation.HandleScroll | src/components/TopNavigation.tsx:54-88 | header hidden iff scrollY > 60; the mobile menu closes on a downward scroll past 50 on a phone; lastScrollY moves only on a phone; the tab becomes the first section containing scrollY + 100, else stays |
| TopNavigation.Navigation.CheckMobile | src/components/TopNavigation.tsx:32-42 | phone iff width ≤ 768; a phone without a stored handedness schedules the prompt, a phone with one loads it |
| TopNavigation.Navigation.ResetHandedness | src/components/TopNavigation.tsx:211-215 | the stored handedness is removed and the prompt shows again |
| TopNavigation.Navigation.PromptTimerFired | src/components/TopNavigation.tsx:37 | the prompt becomes visible |
| TopNavigation.Navigation.ChooseHandedness | src/components/TopNavigation.tsx:603-633 | the chosen handedness is set and stored under 'handedness-n', and the prompt closes |
| TopNavigation.Navigation.SelectTheme | src/components/TopNavigation.tsx:352-375 | the theme is set, the dropdown closes, and the primary and secondary hues come from the table |
| HobbiesScroll.Clamp01 | src/hooks/useHobbiesScroll.ts:27 | Math.max(0, Math.min(1, x)) is in [0, 1], is x inside it, 0 below and 1 above |
| HobbiesScroll.Clamp01Monotone | src/hooks/useHobbiesScroll.ts:27 | clamping keeps order |
| HobbiesScroll.StoryProgress | src/hooks/useHobbiesScroll.ts:26-28 | the progress is in [0, 1] |
| HobbiesScroll.StoryProgressMonotone | src/hooks/useHobbiesScroll.ts:26-28 | scrolling further down never lowers the progress |
| HobbiesScroll.SectionOpacity | src/hooks/useHobbiesScroll.ts:32-35 | the opacity is between 0.6 and 1 |
| HobbiesScroll.SectionOpacityEnds | src/hooks/useHobbiesScroll.ts:30-35 | fully opaque iff the section's top has reached the window top; faintest iff it is at least 200 px below the window |
| HobbiesScroll.CurrentChapterOf | src/hooks/useHobbiesScroll.ts:41-52 | the last present chapter whose top is at most 400, else chapter 0 |
| HobbiesScroll.HobbiesState.constructor | src/hooks/useHobbiesScroll.ts:13-16 | chapter 0, progress 0, opacity 0.6, tiles inactive |
| HobbiesScroll.HobbiesState.HandleScroll | src/hooks/useHobbiesScroll.ts:19-74 | without the section nothing changes; otherwise progress, opacity and chapter follow the formulas, the tiles are active iff in view, in the puzzles chapter and progress ≤ 0.8, and an event carrying the new value is sent iff that flag changed |
| ProjectViewer.NextIndex | src/components/ProjectViewer.tsx:84-86 | the next index stays in range and wraps from the last image to the first |
| ProjectViewer.PrevIndex | src/components/ProjectViewer.tsx:88-90 | the previous index stays in range and wraps from the first image to the last |
| ProjectViewer.PrevAfterNext | src/components/ProjectViewer.tsx:84-90 | previous after next is the identity |
| ProjectViewer.NextAfterPrev | src/components/ProjectViewer.tsx:84-90 | next after previous is the identity |
| ProjectViewer.Viewer.PanelRendered | src/components/ProjectViewer.tsx:152 | the panel is in the page while open and while the closing animation runs |
| ProjectViewer.Viewer.ShowsNavigation | src/components/ProjectViewer.tsx:253 | the arrows and thumbnails are shown only for more than one image |
| ProjectViewer.Viewer.constructor | src/components/ProjectViewer.tsx:29-31 | the initial state shows the given project from its first image |
| ProjectViewer.Viewer.HandleClose | src/components/ProjectViewer.tsx:48-50 | closing starts the exit animation and the panel stays rendered |
| ProjectViewer.Viewer.CloseTimerFired | src/components/ProjectViewer.tsx:51-54 | after 400 ms the closing flag clears, so the panel is rendered iff open, and the caller's onClose is invoked |
| ProjectViewer.Viewer.OpenChanged | src/components/ProjectViewer.tsx:73-77 | opening clears a pending close |
| ProjectViewer.Viewer.ProjectChanged | src/components/ProjectViewer.tsx:58-70 | a different project id hides the content and schedules the swap; the same id changes nothing |
| ProjectViewer.Viewer.SwapTimerFired | src/components/ProjectViewer.tsx:64-68 | the new project is shown from its first image and the content is visible again |
| ProjectViewer.Viewer.NextImage | src/components/ProjectViewer.tsx:84-86 | the index advances cyclically |
| ProjectViewer.Viewer.PrevImage | src/components/ProjectViewer.tsx:88-90 | the index steps back cyclically |
| ProjectViewer.Viewer.ThumbnailClick | src/components/ProjectViewer.tsx:253-258 | clicking thumbnail k shows image k |
| AIAssistant.FindStarter | src/components/AIAssistant.tsx:64 | Array.find: the first starter with that question, and none exactly when no starter has it |
| AIAssistant.ResponseFor | src/components/AIAssistant.tsx:63-72 | a starter question gets a matching starter's response, anything else the fallback text |
| AIAssistant.StartersDistinct | src/components/AIAssistant.tsx:41-58 | the four starters ask four different questions |
| AIAssistant.StarterAnswered | src/components/AIAssistant.tsx:63-72 | with distinct questions, each starter question is answered with that starter's own response |
| AIAssistant.TrimStart | src/components/AIAssistant.tsx:100 | the result is a suffix that does not start with white space, and the dropped prefix is all white space |
| AIAssistant.TrimEnd | src/components/AIAssistant.tsx:100 | the result is a prefix that does not end with white space, and the dropped suffix is all white space |
| AIAssistant.Trim | src/components/AIAssistant.tsx:100 | the result is the input with a blank prefix and a blank suffix cut off, and it neither starts nor ends with white space |
| AIAssistant.TrimStartEmpty | src/components/AIAssistant.tsx:100 | trimming the start leaves nothing iff the text is all white space |
| AIAssistant.TrimEndEmpty | src/components/AIAssistant.tsx:100 | trimming the end leaves nothing iff the text is all white space |
| AIAssistant.TrimEmptyIffBlank | src/components/AIAssistant.tsx:100 | `!inputValue.trim()` holds iff the input is empty or all white space |
| AIAssistant.TypeOut | src/components/AIAssistant.tsx:79-87 | the typing loop shows every prefix of the response, one character longer each time |
| AIAssistant.Assistant.StartersShown | src/components/AIAssistant.tsx:242 | the starters are offered while the greeting is the only message |
| AIAssistant.Assistant.constructor | src/components/AIAssistant.tsx:19-30 | the conversation opens with the greeting (id 1) and offers the starters |
| AIAssistant.Assistant.SimulateAIResponse | src/components/AIAssistant.tsx:60-97 | the response is typed out prefix by prefix, then appended as an AI message, and the typing text is cleared |
| AIAssistant.Assistant.HandleSendMessage | src/components/AIAssistant.tsx:99-113 | a blank input sends nothing; otherwise the untrimmed input and then its answer are appended and the input is cleared |
| AIAssistant.Assistant.HandleKeyPress | src/components/AIAssistant.tsx:115-120 | only Enter without Shift sends, and it sends iff the input is not blank; a send appends the untrimmed input and its answer and clears the input, otherwise messages and input are unchanged |
| AIAssistant.Assistant.HandleStarterClick | src/components/AIAssistant.tsx:122-132 | the starter's question and its own response are appended, and the starters are no longer shown |
| ContactForm.SubmitError | src/hooks/useContactForm.ts:56-78 | no error iff the response is ok; a failed response gives its truthy error field or 'Failed to send message'; a thrown Error gives its message, anything else the fixed text |
| ContactForm.FailedResponseHasMessage | src/hooks/useContactForm.ts:67-69 | a failed response always stores a non-empty message |
| ContactForm.Form.constructor | src/hooks/useContactForm.ts:20-28 | empty fields, not loading, no success, no error |
| ContactForm.Form.HandleChange | src/hooks/useContactForm.ts:30-46 | the named field takes the value, the others are kept, a truthy error and the success flag are cleared |
| ContactForm.Form.BeginSubmit | src/hooks/useContactForm.ts:48-63 | loading starts, the status is cleared and the current fields are posted |
| ContactForm.Form.CompleteSubmit | src/hooks/useContactForm.ts:56-78 | success clears the fields, failure stores SubmitError and keeps them, and loading ends |
| ContactForm.Form.ResetForm | src/hooks/useContactForm.ts:80-85 | back to the initial state |
| Hero.Unmarked | src/components/Hero.tsx:15-68 | the ordinary tokens carry their text, type and line break, with no special marker |
| Hero.Utf16Length | src/components/Hero.tsx:88 | String.length counts at least one and at most two code units per character |
| Hero.Delay | src/components/Hero.tsx:86-88 | one of 30, 40, 50 and 100: 100 iff a line break follows, 50 iff a string, 40 iff longer than five code units, 30 iff none of these |
| Hero.StepDelay | src/components/Hero.tsx:90-92 | 1000 before the first step, the token's delay afterwards |
| Hero.FirstDelayOverridden | src/components/Hero.tsx:16 | the first token ends a line, so 1000 replaces its 100 |
| Hero.EasterEggIsLast | src/components/Hero.tsx:15-69 | exactly the last token is the easter egg |
| Hero.TokenStyle | src/components/Hero.tsx:97-109 | the pulsing style is given iff the type is 'method' and the token is the easter egg; any other method is 'text-blue-300'; a missing type or one without a case (such as 'indent') gets the default style |
| Hero.PulseStyleNeverUsed | src/components/Hero.tsx:68 | the easter egg has no type, so no token of the snippet pulses |
| Hero.Typewriter.Rendered | src/components/Hero.tsx:202 | exactly the tokens before the index are drawn |
| Hero.Typewriter.CursorShown | src/components/Hero.tsx:210 | the cursor blinks until every token is drawn |
| Hero.Typewriter.constructor | src/components/Hero.tsx:11-12 | index 0, cube hidden, cursor shown |
| Hero.Typewriter.RunEffect | src/components/Hero.tsx:71-95 | past the end nothing is scheduled; the easter egg shows the cube and calls onCubeStart when given; the next step waits StepDelay |
| Hero.Typewriter.TimerFired | src/components/Hero.tsx:90-92 | one more token is drawn |
| Skills.ProficiencyOf | src/components/sections/SkillsSection.tsx:88-90 | the proficiency rank is the number of the thresholds 70, 80 and 90 reached |
| Skills.LevelLabel | src/components/sections/SkillsSection.tsx:88-90 | the label names the level's proficiency |
| Skills.DotColour | src/components/sections/SkillsSection.tsx:82-86 | the colour is the level's proficiency colour |
| Skills.NamesAndColoursDistinct | src/components/sections/SkillsSection.tsx:82-90 | the four labels differ and the four colours differ |
| Skills.LabelAndColourAgree | src/components/sections/SkillsSection.tsx:82-90 | two levels share a label iff they share a dot colour |
| Skills.ProficiencyMonotone | src/components/sections/SkillsSection.tsx:82-90 | a higher percentage never gets a lower proficiency |

## Notes on the source

- TopNavigation.tsx:32-42: `checkMobile` is created once, when the component mounts. The `!showHandednessPrompt` it tests therefore always reads the initial `false`. A resize on a phone with nothing stored schedules the prompt again, even while it is showing. `Navigation.CheckMobile` models this as written.
- useHobbiesScroll.ts:31: the comment says the section is fully opaque 200 px from the top. The formula reaches 1 only once the section's top is at or above the window top. `SectionOpacityEnds` states what the code does. The 200 px appears at the other end: the opacity is 0.6 while the top is at least 200 px below the window.
- TopNavigation.tsx:367-368: the secondary hue is not reduced modulo 360. The pink theme writes `hsl(380, …)`. CSS reads that as hue 20, so it is not an error, but it is the one hue outside [0, 360).
- page.tsx:62: an element of height 0 gives the ratio 0 / 0, which is NaN. A NaN score loses every comparison, so the model skips such an element. The code has no explicit branch for this.

## Left out

- ThreeJSCube.tsx, the MAXIMUM CHAOS button, AnimatedBackground, DynamicSection and all markup and animation. These are presentational and have no state logic worth modelling.
- The content data file and EditModeSaveButton.tsx are not part of this model.
- Clocks, timers, `Math.random`, `fetch`, `localStorage` and the DOM are parameters or fields. The timers' delays (400, 300, 2000, 1000 and 5000 ms) appear only in comments and in `StepDelay`.
- Concurrency: overlapping submits, interleaved chat responses and stale timers that fire after unmounting are not modelled. Each asynchronous handler runs to completion in one method call.
- Message timestamps (`new Date()`) are left out; message ids are the `now` and `later` parameters.
- The mobile check in page.tsx (page.tsx:107) decides whether the cube is mounted at all; it is left out with the rest of the ThreeJSCube rendering. The mobile check in ProjectViewer.tsx only chooses animations and is left out too.
- SlidingPuzzle.Game.InitializePuzzle: solvability of the shuffled board is not repeated in its contract. It follows from PuzzleBoard.ShuffledIsSolvable applied to the `tiles` it ensures.
- AIAssistant.Assistant.HandleStarterClick: it requires the starters to have distinct questions. StartersDistinct proves this for the component's list, which the constructor installs.
- ProjectViewer.Viewer.NextImage: it requires more than one image, because the arrows are only rendered then. The code's `% 0` on an empty image list is unreachable and is not modelled.
- Hero.Utf16Length: UTF-16 length is modelled only for `String.length` in the hero. Elsewhere strings are sequences of code points.
- The scroll listeners' registration and removal, and the AI assistant's scroll-to-bottom, are left out.
- Real numbers stand in for IEEE doubles in `Score`, `VisibilityRatio`, `StoryProgress` and `SectionOpacity`; the comparison in `MostVisibleSection` may settle a near-tie differently in the browser, where the scores are rounded.
- SlidingPuzzle.Game.TimerTick: requires `now >= startTime`, that is, a clock that does not go backwards.
- PuzzleBoard.IndexOf: returns the length where `indexOf` returns -1 for a missing value; the source applies `indexOf` only to boards, which always hold 0. ParseTime, the model's reader for the timer text, treats the length as "no colon".
