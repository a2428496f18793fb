# competitive-programming-client, modelled in Dafny

This project models the core of a curses terminal client for competitive
programming sites. In the client, a `Tool` shows nested problem containers
as a flat list in a `CursesUI` window. Vim-like keys move the selection,
scroll the list, enter or leave a container, and run commands typed after
`:`. The first time the user enters the Codeforces container, the Codeforces
catalogue is fetched and grouped into one container per contest. The
problem statistics' solved counts are merged into that catalogue, and the
contests are sorted by contest id.

The project also models the earlier draft of the same tool
(`codeforces_client.py`). That draft covers URL normalisation, contest
grouping, the contest and problem sorts, `_move`, and its own key loop.

Modules:

| module | file | models |
|---|---|---|
| `Wrappers` | wrappers.dfy | `Option` and `Result` |
| `Text` | text.dfy | `str(int)` and its inverse, `str.split()` with no argument, `startswith` |
| `CursesUI` | curses_ui.dfy | the class `CursesUI`. Clamping, scrolling, truncate-and-pad and the drawn rows are pure functions, and the class `UI` keeps the fields its methods update |
| `Containers` | containers.dfy | `ProblemContainer` / `Problem` entries, their labels, `Problem.path` |
| `Catalogue` | catalogue.dfy | insertion-ordered dicts, the grouping and merge loops of `get_catalogue`, `list.sort(key=...)`, the catalogue container |
| `Keys` | keys.dfy | one iteration of `Tool.main`: the count, the three-key history, command mode and the action each key takes |
| `Navigation` | navigation.dfy | the class `Tool`: the container stack, `_go_down_level`, `_go_up_level` and the key loop |
| `DraftTool` | draft_tool.dfy | the draft `Tool.__init__` contest list and the draft `Tool.main` / `_move` |
| `Urls` | urls.dfy | the stored url and api url of a Codeforces client, and the problem page `load_problem` opens |

Screen and input values become parameters:

- The screen size (`getmaxyx()`) is passed to every drawing operation as `maxY`, `maxX`.
- Screen writes become the fields `viewport` (the list rows) and `barLine` (the status bar row).
- The keys read by `getch()` become a finite sequence of events.
- The catalogue that `get_catalogue` returns or raises becomes a parameter, fixed for a run.
- The text a problem's format string produces becomes a `render` function parameter.

Python's semantics are written out where they matter:

- negative list indices (`PyIndex`);
- `collections.deque(maxlen=3)` with `appendleft` (`Remember`);
- `math.inf` as the `ToStart` and `ToEnd` steps;
- dict insertion order (`Dict`);
- `str.split()` (`Split`);
- `list.sort(key=...)` as a sorted permutation (`SortBy`); stability is not stated, and every key the sorts use is unique.

## Model

| member | source | states |
|---|---|---|
| CursesUI.MovedIndex | competitive_programming_client.py:226-231 | the new index is within the list when it is non-empty; -inf gives 0, +inf the last index; an in-range target is taken as is; on an empty list a finite step gives 0 when the target is negative and -1 otherwise |
| CursesUI.MovedIndexIsNearest | competitive_programming_client.py:226-231 | clamping picks the valid index nearest to index + n |
| CursesUI.MovedIndexMonotonic | competitive_programming_client.py:226-231 | a larger step never selects an earlier entry; -inf and +inf bound every finite step |
| CursesUI.ScrolledStart | competitive_programming_client.py:236-243 | after scrolling, the new index lies within the maxY - 1 visible rows; a window that already shows it is kept |
| CursesUI.ScrolledStartIsMinimal | competitive_programming_client.py:236-243 | no other window showing the new index is nearer the old start |
| CursesUI.Fit | competitive_programming_client.py:253-256 | the string is truncated, then padded with spaces, to exactly maxX - 1 characters |
| CursesUI.FitIdempotent | competitive_programming_client.py:253-256 | fitting a fitted line changes nothing |
| CursesUI.RowAt | competitive_programming_client.py:263-268 | a row has the screen width and is reverse-video exactly at the selected index |
| CursesUI.Rows | competitive_programming_client.py:258-269 | maxY - 1 rows; row y shows entry viewport_start + y fitted, or blanks outside the list; at most one row is highlighted, the selected one |
| CursesUI.MoveKeepsSelectionOnScreen | competitive_programming_client.py:224-246 | after any move the newly selected entry is drawn, highlighted, and no other row is highlighted |
| CursesUI.UI.constructor | competitive_programming_client.py:172-184 | nothing is selected, and the status bar is drawn empty |
| CursesUI.UI.CurrentStatus | competitive_programming_client.py:186-193 | the status is the current index and viewport start |
| CursesUI.UI.RefreshViewport | competitive_programming_client.py:258-269 | the drawn rows become Rows of the current selection, index and window |
| CursesUI.UI.SetSelection | competitive_programming_client.py:200-212 | the selection is replaced. No status resets to (0, 0), a Status is restored, and any other value raises TypeError before anything is redrawn. Otherwise the list is redrawn |
| CursesUI.UI.SetStatusBar | competitive_programming_client.py:214-222 | the message is stored and drawn fitted exactly when the screen has a row; otherwise TypeError and nothing changes |
| CursesUI.UI.Refresh | competitive_programming_client.py:195-198 | the list is redrawn and the stored message is redrawn, with the TypeError of a screen without rows |
| CursesUI.UI.MoveSelection | competitive_programming_client.py:224-246 | the index becomes the clamped target and the window scrolls just enough to show it; the list is redrawn |
| CursesUI.UI.MoveViewport | competitive_programming_client.py:248-251 | the window moves by n without clamping; the selection stays |
| Containers.Label | competitive_programming_client.py:289-290 | a container shows "name (" … ")"; a problem shows its formatted text |
| Containers.ContainerLabelShowsSize | competitive_programming_client.py:289-290 | the digits between the name's " (" and the closing ")" read back as the container's size |
| Containers.Labels | competitive_programming_client.py:551 | the UI lists one label per entry, in order |
| Containers.ProblemPath | competitive_programming_client.py:307-310 | the path is the contest id's numeral followed by the index |
| Containers.ProblemPathInjective | competitive_programming_client.py:307-310 | distinct (contest id, index) pairs get distinct paths |
| Text.NatToString | competitive_programming_client.py:290 | str() of a natural: decimal digits, no leading zero |
| Text.ParseNatToString | competitive_programming_client.py:290 | reading back str(n) gives n |
| Text.IntToString | competitive_programming_client.py:310 | str() of an int: a numeral, with a minus sign exactly when negative |
| Text.IntToStringRoundTrip | competitive_programming_client.py:310 | reading back str(i) gives i |
| Text.IntToStringInjective | competitive_programming_client.py:310 | distinct ints have distinct numerals |
| Text.FirstSpace | competitive_programming_client.py:579 | the first whitespace position: everything before it is non-space |
| Text.NonSpace | competitive_programming_client.py:579 | at most the input's length, no whitespace, and a single character is kept exactly when it is not whitespace; with NonSpaceAppend this fixes the result for every string |
| Text.NonSpaceAppend | competitive_programming_client.py:579 | dropping whitespace from a concatenation drops it from each part: NonSpace(s + t) == NonSpace(s) + NonSpace(t) |
| Text.NonSpaceSplitsAt | competitive_programming_client.py:579 | a whitespace-free prefix is kept whole |
| Text.Split | competitive_programming_client.py:579 | str.split(): non-empty, whitespace-free words whose concatenation is the string without whitespace; when the string does not start with whitespace the first word is everything before the first whitespace; with SplitWord and SplitAtSpace this fixes the words of every string |
| Text.SplitWord | competitive_programming_client.py:579 | a non-empty whitespace-free string is one word |
| Text.SplitAtSpace | competitive_programming_client.py:579 | whitespace separates words: Split(a + [c] + b) == Split(a) + Split(b) for a whitespace c, so words are maximal runs |
| Catalogue.Put | competitive_programming_client.py:426 | d[k] = v: a new key goes last, an existing key keeps its place and gets the new value |
| Catalogue.AddProblem | competitive_programming_client.py:423-426 | one grouping step keeps the nested dicts well formed |
| Catalogue.Grouped | competitive_programming_client.py:423-426 | the grouped dict is well formed |
| Catalogue.LastWithKeyFound | competitive_programming_client.py:423-426 | some problem carries the key exactly when a last such problem exists |
| Catalogue.GroupedHoldsLastProblem | competitive_programming_client.py:423-426 | contests[c][x] is the last listed problem with contest id c and index x, and it is absent when there is none |
| Catalogue.GroupedIsFiledByKey | competitive_programming_client.py:423-426 | every grouped record is filed under its own contest id and index |
| Catalogue.LastWithKeyMatches | competitive_programming_client.py:423-426 | the last problem found for a key has that key |
| Catalogue.GroupProblems | competitive_programming_client.py:416-426 | the grouping loop builds Grouped(problems) |
| Catalogue.SetSolved | competitive_programming_client.py:428-431 | the solved count is set on the named problem, and only there; a missing contest or index raises KeyError |
| Catalogue.MergedAll | competitive_programming_client.py:428-431 | a completed merge keeps the keys and the set of problems |
| Catalogue.MergeSucceedsIffAllKnown | competitive_programming_client.py:428-431 | the merge completes exactly when every statistic names a grouped problem |
| Catalogue.MergeSetsLastSolvedCount | competitive_programming_client.py:428-431 | after the merge each problem carries the solved count of the last statistic naming it; the other fields are unchanged |
| Catalogue.MergedErrorPersists | competitive_programming_client.py:428-431 | once a statistic raises, the later ones do not matter |
| Catalogue.MergeSolvedCounts | competitive_programming_client.py:428-431 | the statistics loop computes MergedAll |
| Catalogue.KeyLeTotal | competitive_programming_client.py:444 | any two sort keys are comparable |
| Catalogue.KeyLeTransitive | competitive_programming_client.py:444 | the key order is transitive |
| Catalogue.StringKey | codeforces_client.py:121-123 | a string's key has one element per character, its code point, which is what str ordering compares |
| Catalogue.InsertSorted | competitive_programming_client.py:444 | insertion adds exactly one occurrence of the element |
| Catalogue.InsertSortedKeepsOrder | competitive_programming_client.py:444 | inserting into a sorted list keeps it sorted |
| Catalogue.SortBy | competitive_programming_client.py:444 | list.sort(key=...): the result is sorted by the key and is a permutation of the input |
| Catalogue.ContestContainer | competitive_programming_client.py:435-438 | a container named by the contest id, without status, holding one problem per record of the contest in dict order, each shown by the format string |
| Catalogue.ContestContainers | competitive_programming_client.py:433-442 | one contest container per grouped contest, in the order the contests were first grouped |
| Catalogue.GetCatalogue | competitive_programming_client.py:410-448 | the catalogue is built exactly when the lengths agree and every statistic names a listed problem; a length mismatch is the AssertionError. The result is the Codeforces container, sorted by contest id, holding one container per grouped contest with the merged records |
| Keys.Chr | competitive_programming_client.py:565 | chr(c) is the character with code c |
| Keys.Remember | competitive_programming_client.py:557 | appendleft on a deque of at most three: the key is first, the older keys follow, and the oldest falls off |
| Keys.Repeat | competitive_programming_client.py:622-649 | a count of 0 gives the unit step itself, a positive count multiplies it; the result is never zero and keeps the direction's sign |
| Keys.ResolveCommand | competitive_programming_client.py:579-597 | a command is recognised exactly when its first word is a prefix of :edit, :submit or :test; the tests run in that order, so a prefix of :edit is :edit with the number of words, else :submit, else :test |
| Keys.CommandReaction | competitive_programming_client.py:574-607 | count and history untouched. Enter on a quit command quits with nothing else changed. Any other Enter clears the command and either runs the resolved command (bar "" for :edit, "\n" for :submit and :test) or does nothing and shows "Not a command". Backspace drops the last character and shows what is left. Any other key appends its character and shows the command |
| Keys.KeyAction | competitive_programming_client.py:621-663 | j/Down, k/Up, PageDown and PageUp move by the repeated step (1, -1, 10, -10); Home and the second g of gg jump to the start, End and G to the end; Ctrl-E and Ctrl-Y scroll by the repeated step; l/Right/Enter go down and h/Left/Backspace go up; every other key does nothing |
| Keys.NormalReaction | competitive_programming_client.py:609-671 | a digit extends the count and is remembered; a resize only redraws; any other key takes KeyAction's action, resets the count, enters command mode exactly on ':', clears the history on ':' and on the second g (otherwise remembers the key), and shows "gg" or the key's character |
| Keys.React | competitive_programming_client.py:565-671 | one iteration keeps the state well formed and the history at most three keys long |
| Keys.Replay | competitive_programming_client.py:561-671 | the state after any run of keys is well formed |
| Keys.Actions | competitive_programming_client.py:561-671 | one action per key |
| Keys.ReplayKeepsThreeKeys | competitive_programming_client.py:557 | the history never holds more than three keys |
| Keys.Chars | competitive_programming_client.py:603 | the characters the keys type |
| Keys.DigitsSpellCount | competitive_programming_client.py:610-614 | digits typed outside command mode make the count the decimal number they spell |
| Keys.CountResets | competitive_programming_client.py:610-619 | a digit multiplies by ten and adds; a resize only redraws, keeping the count and history; any other key resets the count |
| Keys.QuitsExactlyOnQuitCommand | competitive_programming_client.py:575-577 | the loop ends exactly on Enter after :q, :wq, :q! or :wq! |
| Keys.TypingBuildsCommand | competitive_programming_client.py:602-604 | after ':' the typed characters build the command, and the earlier history is forgotten |
| Keys.BackspaceLeavesCommandMode | competitive_programming_client.py:599-601 | Backspace on ":" leaves command mode with an empty status bar |
| Keys.AbbreviationsOverlapOnlyInColon | competitive_programming_client.py:581-597 | no word of two or more characters abbreviates two of the commands |
| Keys.ResolveCommandIgnoresOrder | competitive_programming_client.py:581-597 | for a first word of two or more characters, ResolveCommand's result does not depend on the order of its checks: an abbreviation of :edit, :submit or :test resolves to that command |
| Keys.BareColonEdits | competitive_programming_client.py:579-590 | Enter on ":" runs :edit with a single word and clears the status bar |
| Keys.MovesAreNonZero | competitive_programming_client.py:621-649 | every finite move and scroll is non-zero; j and k move by the count, or by one |
| Keys.DoubleGJumpsToStart | competitive_programming_client.py:636-640 | the second g of "gg" jumps to the top, clears the history and count, and shows "gg" |
| Keys.FirstGIsPlain | competitive_programming_client.py:636 | a g with an empty history is an ordinary key that is only remembered |
| Navigation.PyIndex | competitive_programming_client.py:684 | a valid Python index refers to a position of the list, counting from the end when negative |
| Navigation.Selected | competitive_programming_client.py:684 | container[index] is an entry of the container, or IndexError exactly when the index is invalid |
| Navigation.Descend | competitive_programming_client.py:682-710 | IndexError exactly for an invalid index; a problem is opened; other top-level clients do nothing; the fetch error only at the top level. Entering pushes the container with the selection saved and keeps the level valid |
| Navigation.Ascend | competitive_programming_client.py:673-680 | nothing at the top; otherwise the parent is popped and shown with its saved status, and the level stays valid |
| Navigation.DescendThenAscend | competitive_programming_client.py:673-703 | down and back up restores the stack, the client and the parent's selection; the parent now holds the child with its own selection saved, and nothing else in the parent changes |
| Navigation.EnteringCodeforces | competitive_programming_client.py:688-703 | at the top level, entering the Codeforces container shows a non-empty entry as it is and replaces an empty one by the fetched catalogue, Container("Codeforces", catalogue, no status); the shown container is written back at the selected index, and that parent, with the selection saved, becomes the whole stack; a fetch error arises only for an empty Codeforces entry |
| Navigation.CatalogueOnlyWhenEmpty | competitive_programming_client.py:695-696 | the catalogue is consulted only when the selected top-level entry is an empty Codeforces container: otherwise any other catalogue gives the same result |
| Navigation.CatalogueFetchedOnce | competitive_programming_client.py:673-703 | after entering with a non-empty catalogue and going back up, the entry is no longer empty, so entering again ignores the catalogue and shows the stored one with its saved selection |
| Navigation.AscendThenDescend | competitive_programming_client.py:673-703 | below the first level, going back into the container just left shows it again with the selection it had |
| Navigation.KeysOf | competitive_programming_client.py:564 | the key of each event, in order |
| Navigation.Tool.constructor | competitive_programming_client.py:527-551 | the top level with its four empty client containers is listed with the first entry selected |
| Navigation.Tool.GoDownLevel | competitive_programming_client.py:682-710 | the state becomes what Descend says; an entered container is listed with its saved selection; an opened problem loads its problem page into the browser page, and any other result leaves the page alone; only the list fields of the UI change, so the status bar and its drawn line stay as they were |
| Navigation.Tool.GoUpLevel | competitive_programming_client.py:673-680 | the state becomes what Ascend says, and the parent is listed with its saved selection; only the list fields of the UI change, so the status bar and its drawn line stay as they were |
| Navigation.Tool.Dispatch | competitive_programming_client.py:606-669 | moves and scrolls keep the level; a message on a screen without rows raises; a fetch error arises only from going down; only going down changes the browser page |
| Navigation.Tool.KeyLoop | competitive_programming_client.py:554-671 | the loop ends on the first quit command, on an exception, or when the keys run out; no earlier key quits |
| DraftTool.ToProblemItem | codeforces_client.py:114-119 | a ProblemItem is built exactly when the record has a solvedCount (otherwise KeyError) |
| DraftTool.ProblemItems | codeforces_client.py:154 | one item per problem of the contest, in dict order |
| DraftTool.ContestProblems | codeforces_client.py:152-155 | the contest's items, or KeyError exactly when a problem lacks a solvedCount |
| DraftTool.BuildContestItems | codeforces_client.py:151-158 | one unexpanded ContestItem per contest in dict order, or KeyError exactly when some problem lacks a solvedCount |
| DraftTool.SortEachContest | codeforces_client.py:160-161 | each contest's problems are sorted by index and permuted only; nothing else changes |
| DraftTool.DraftContests | codeforces_client.py:151-161 | the contests are sorted by id, every contest is listed, each item holds its contest's problems sorted by index; or KeyError exactly when a solvedCount is missing |
| DraftTool.EveryContestListed | codeforces_client.py:151-161 | both sorts keep an item for every contest |
| DraftTool.EachItemHoldsContest | codeforces_client.py:151-161 | after both sorts each item is an unexpanded item holding one contest's problems |
| DraftTool.SortedItemFromKey | codeforces_client.py:160-161 | re-sorting a contest's problems keeps the item a holder of that contest |
| DraftTool.DraftMove | codeforces_client.py:170-180 | _move raises RuntimeError exactly for a zero step |
| DraftTool.DraftReact | codeforces_client.py:197-242 | IndexError exactly for g with an empty history; q exactly ends; digits build the count; resize changes nothing; other keys reset the count and are remembered, and the step they pass to _move is DraftStep's, except that a g after a non-g moves nothing; _move never gets zero |
| DraftTool.DraftStep | codeforces_client.py:217-233 | the step passed to _move exists exactly for j, Down, k, Up, PageDown, PageUp, Home, g, End and G; j/Down step by the repeated 1, k/Up by -1, PageDown by 10 and PageUp by -10; Home/g jump to the start and End/G to the end; it is never zero, and a finite step is positive exactly for j, Down and PageDown |
| DraftTool.RunDraft | codeforces_client.py:194-242 | the loop computes DraftRun over the keys |
| DraftTool.DraftHistory | codeforces_client.py:192 | the deque holds at most three keys, the newest first |
| DraftTool.DraftDigitsSpellCount | codeforces_client.py:202-210 | leading digits make the count the decimal number they spell, and are remembered |
| DraftTool.DraftQuitsOnlyOnQ | codeforces_client.py:194-242 | a run that quits contains a q, and a run without a q that raises nothing uses up every key |
| DraftTool.DraftQuitsOnQ | codeforces_client.py:235-236 | q ends the loop whatever the state |
| DraftTool.DraftNeverRaisesRuntimeError | codeforces_client.py:170-242 | the loop never raises RuntimeError, and any exception it raises comes from a g |
| DraftTool.FirstKeyGRaises | codeforces_client.py:229 | a g as the first key raises IndexError |
| Urls.NormalizedUrl | competitive_programming_client.py:367-371 | an empty url raises IndexError; otherwise the stored url ends in '/' and extends the configured one by at most that '/' |
| Urls.NormalizedUrlIdempotent | codeforces_client.py:37-40 | normalising a stored url changes nothing |
| Urls.ApiUrl | competitive_programming_client.py:373-377 | a given api url is used verbatim; otherwise it is the stored url followed by "api/" |
| Urls.DerivedApiUrlUnderBase | codeforces_client.py:42-45 | the derived api url ends in '/' and lies under the configured url |
| Urls.ProblemPage | competitive_programming_client.py:451-456 | the problem page lies under the stored url's problemset/problem/ |
| Urls.ProblemPageInjective | competitive_programming_client.py:451-456 | different problems (contest id or index) have different problem pages |
| Urls.LoadProblemAsWritten | competitive_programming_client.py:451-456 | the url is built exactly when a Problem has the attributes contest_id and index, and it is then the problem page |
| Urls.OpeningAProblemRaises | competitive_programming_client.py:454 | a Problem has only obj, fmt and path, so reading contest_id raises AttributeError for every problem |

## Left out

- Drawing through curses (`addstr`, `clear`, `curs_set`, attributes) is left out. The model records the drawn rows and the status bar line as values.
- Blocking `getch()` is left out: the key loop runs over a finite sequence of events.
- `curses.error` from drawing is left out, together with its fallback at competitive_programming_client.py:668-669. `set_status_bar`'s TypeError for a screen without rows is modelled after startup, and it ends the run.
- CursesUI.UI.constructor and Navigation.Tool.constructor require a screen with at least one row (`maxY > 0`). On a screen without rows the source's first `set_status_bar` (competitive_programming_client.py:184) raises TypeError during startup; that failure is not modelled.
- The HTTP request, JSON decoding and the `ResponseError` cases of `get_catalogue` and `get_contests` are left out. A fetch is one of the values `ResponseError`, a catalogue error or a catalogue, fixed for a run.
- These are not part of this model: the Codeforces login, the selenium driver calls inside `load_problem` (the page comparison and scrolling), `_edit` and `_submit` with their subprocess calls, the config file, key hashing and the command line. Opening a problem is the `Opened` result, which sets the browser page to the problem page. `:edit`, `:submit` and `:test` are the `Run` action after the selection lookup the source performs.
- The Codeforces client's stored url is the parameter `site`, fixed for a run. Building the client can fail in the source (a missing config key, or the IndexError of an empty url at competitive_programming_client.py:368); that failure is not modelled.
- Navigation.Tool.GoDownLevel: opening a problem follows the corrected `load_problem` in the Findings table, with a browser that has been started. As written, the source ends the run with AttributeError there (Urls.OpeningAProblemRaises), and `_start_client` (competitive_programming_client.py:392-396) is never called, so `self._client` would still be None at competitive_programming_client.py:458.
- Containers.ProblemPath: the path is kept as the pair of components. pathlib's normalisation is not modelled: an index ending in '/' or holding '/' or '..' is not split or resolved, and an absolute index does not replace the contest part.
- Containers.ProblemPathInjective: it holds for the pair of components only. After pathlib's normalisation, "A" and "A/" give the same path, and an absolute index hides the contest id.
- The Codeforces client object is not modelled. The model keeps only whether one exists (`clientActive`). When the fetch raises, the model leaves the state unchanged, although the source has already created the client. The run ends at that point either way.
- The text of `Problem.__str__` (its format string) is the `render` parameter. Its KeyError at draw time, for a problem whose statistics never arrived, is left out.
- `maxX >= 1` is required wherever a line is fitted. With a width of -1 the format specification raises ValueError, and curses never reports zero columns.
- The UI fields start as 0, 0 and an empty selection, where the source has None. Nothing reads them before `set_selection`.
- `list.sort` is modelled on sequences, not in place. Aliasing between containers is modelled only where it shows: going up writes the child, with its saved status, back into its parent.
- `ContestItem.key_contest_id` compares ints, and `ProblemItem.key_name` and `key_solved_count` are never used, so they are left out.
- `ContestItem.expanded` is kept but never read.
- The draft `Tool.main` checks `screen is None` and re-reads the size on resize (`_handle_resize`). Neither affects the loop's variables, so both are left out.
- Navigation.Tool.KeyLoop: states which key ends the loop and that the tool stays valid. It does not tie the final screen to a specification function of the whole run.
- Navigation.Tool.Dispatch: states the level for moves and scrolls, and which faults can arise. The effect of going down or up is stated by GoDownLevel and GoUpLevel, which it calls.

## Findings

| source | as written | input that shows it | evidently intended | confidence | as-written member | corrected member |
|---|---|---|---|---|---|---|
| codeforces_client.py:229 | `c == ord("g") and history[0] == ord("g")` reads `history[0]` for every g, and the deque is empty before the first remembered key | the first key pressed is `g` | a lone g is an ordinary key; the later client guards with `history and` (competitive_programming_client.py:636) | high, not executed | DraftTool.FirstKeyGRaises | Keys.FirstGIsPlain |
| competitive_programming_client.py:454 | `load_problem` formats `problem.contest_id` and `problem.index`, but `Problem` (competitive_programming_client.py:293-310) has only `obj`, `fmt` and `path` | select any problem in a contest and press `l` | read `problem.obj["contestId"]` and `problem.obj["index"]`, as `Problem.path` does, with the browser started first | high, not executed | Urls.OpeningAProblemRaises | Urls.ProblemPageInjective |
