/**
 * One turn of the navigator's key loop, as a pure function: the key read by
 * getch, the loop's own variables before it (the repeat count, the last three
 * keys, the command being typed), and what the turn does: the variables after
 * it, the action taken on the list, and the message, if any, put on the
 * status bar.  The effects of the actions on the list are in Navigation.
 */
module Keys {
  import opened Wrappers
  import opened Text
  import opened CursesUI

  /** A code getch returns: a character or an ncurses KEY_ value; all lie below the surrogates, so chr() is a char. */
  type KeyCode = c: int | 0 <= c < 0xD800

  const Enter: KeyCode := 10
  const CtrlE: KeyCode := 5
  const CtrlY: KeyCode := 25
  const KeyDown: KeyCode := 258
  const KeyUp: KeyCode := 259
  const KeyLeft: KeyCode := 260
  const KeyRight: KeyCode := 261
  const KeyHome: KeyCode := 262
  const KeyBackspace: KeyCode := 263
  const KeyNextPage: KeyCode := 338
  const KeyPreviousPage: KeyCode := 339
  const KeyEnd: KeyCode := 360
  const KeyResize: KeyCode := 410

  /** ord() of a character. */
  function Ord(ch: char): KeyCode
    requires (ch as int) < 0xD800
  {
    ch as int
  }

  /** chr() of a key code. */
  function Chr(c: KeyCode): (ch: char)
    ensures ch as int == c
  {
    c as char
  }

  /** The status bar text chr(c) a key shows by default. */
  function KeyText(c: KeyCode): string {
    [Chr(c)]
  }

  /** The loop variables count, history (a deque of at most three keys, newest first) and command. */
  datatype KeyState = KeyState(count: nat, history: seq<KeyCode>, command: string)

  /** The loop variables before the first key. */
  const Initial := KeyState(0, [], "")

  /** A command being typed always starts with the ':' that opened it. */
  predicate Wellformed(s: KeyState) {
    s.command == [] || s.command[0] == ':'
  }

  /** history.appendleft(c) on a deque with maxlen 3: c comes first, the oldest key falls off the end. */
  function Remember(history: seq<KeyCode>, c: KeyCode): (h: seq<KeyCode>)
    ensures |h| == if |history| < 3 then |history| + 1 else 3
    ensures h[0] == c
    ensures forall i :: 0 < i < |h| ==> h[i] == history[i - 1]
  {
    var h := [c] + history;
    if |h| <= 3 then h else h[..3]
  }

  /** `unit if count == 0 else unit*count`: a count of zero stands for one. */
  function Repeat(count: nat, unit: int): (n: int)
    ensures unit != 0 ==> n != 0
    ensures unit > 0 ==> n > 0
    ensures unit < 0 ==> n < 0
    ensures count == 0 ==> n == unit
    ensures count > 0 ==> n == unit * count
  {
    unit * (if count == 0 then 1 else count)
  }

  /** The commands typed after ':' and resolved on Enter; the edit command carries its word count. */
  datatype Command = EditCommand(wordCount: nat) | SubmitCommand | TestCommand

  /** What a key does to the list. */
  datatype Action =
    | Nothing
    | Move(step: Step)        // move_selection
    | Scroll(n: int)          // move_viewport
    | DownLevel               // _go_down_level
    | UpLevel                 // _go_up_level
    | Redraw                  // refresh
    | Quit                    // leave the loop
    | Run(command: Command)

  /** The outcome of one key: the loop variables after it, the action, and the status bar message it sets (None: untouched). */
  datatype Reaction = Reaction(next: KeyState, action: Action, bar: Option<string>)

  /** The commands that end the loop. */
  predicate IsQuitCommand(command: string) {
    command == ":q" || command == ":wq" || command == ":q!" || command == ":wq!"
  }

  /**
   * Enter on a typed command: the first word, as typed or abbreviated, is
   * checked against :edit, then :submit, then :test.
   */
  function ResolveCommand(command: string): (r: Option<Command>)
    requires command != [] && command[0] == ':'
    ensures r.Some? <==> (var w := Split(command)[0];
                          IsPrefix(w, ":edit") || IsPrefix(w, ":submit") || IsPrefix(w, ":test"))
    ensures var words := Split(command);
            IsPrefix(words[0], ":edit") ==> r == Some(EditCommand(|words|))
    ensures var w := Split(command)[0];
            !IsPrefix(w, ":edit") && IsPrefix(w, ":submit") ==> r == Some(SubmitCommand)
    ensures var w := Split(command)[0];
            !IsPrefix(w, ":edit") && !IsPrefix(w, ":submit") && IsPrefix(w, ":test") ==> r == Some(TestCommand)
  {
    var words := Split(command);
    if IsPrefix(words[0], ":edit") then Some(EditCommand(|words|))
    else if IsPrefix(words[0], ":submit") then Some(SubmitCommand)
    else if IsPrefix(words[0], ":test") then Some(TestCommand)
    else None
  }

  /** A key while a command is being typed. */
  function CommandReaction(s: KeyState, c: KeyCode): (r: Reaction)
    requires s.command != [] && s.command[0] == ':'
    ensures Wellformed(r.next)
    ensures r.next.count == s.count && r.next.history == s.history
    ensures c == Enter && IsQuitCommand(s.command) ==> r == Reaction(s, Quit, None)
    ensures c == Enter && !IsQuitCommand(s.command) ==>
              && r.next.command == []
              && (ResolveCommand(s.command).None? ==> r.action == Nothing && r.bar == Some("Not a command"))
              && (ResolveCommand(s.command).Some? ==> r.action == Run(ResolveCommand(s.command).value))
              && (ResolveCommand(s.command) == Some(SubmitCommand) || ResolveCommand(s.command) == Some(TestCommand) ==> r.bar == Some("\n"))
              && (ResolveCommand(s.command).Some? && ResolveCommand(s.command).value.EditCommand? ==> r.bar == Some(""))
    ensures c == KeyBackspace ==> && r.next.command == s.command[..|s.command| - 1]
                                  && r.action == Nothing && r.bar == Some(r.next.command)
    ensures c != Enter && c != KeyBackspace ==> && r.next.command == s.command + [Chr(c)]
                                                && r.action == Nothing && r.bar == Some(r.next.command)
  {
    if c == Enter then
      if IsQuitCommand(s.command) then Reaction(s, Quit, None)
      else
        var next := s.(command := "");
        match ResolveCommand(s.command)
        case Some(EditCommand(n)) => Reaction(next, Run(EditCommand(n)), Some(""))
        case Some(cmd) => Reaction(next, Run(cmd), Some(KeyText(c)))
        case None => Reaction(next, Nothing, Some("Not a command"))
    else if c == KeyBackspace then
      var command := s.command[..|s.command| - 1];
      Reaction(s.(command := command), Nothing, Some(command))
    else
      var command := s.command + KeyText(c);
      Reaction(s.(command := command), Nothing, Some(command))
  }

  /** `c == ord("g") and history and history[0] == ord("g")`: the second g of "gg". */
  predicate IsSecondG(history: seq<KeyCode>, c: KeyCode) {
    c == Ord('g') && history != [] && history[0] == Ord('g')
  }

  /** The keys outside command mode that act on the list (besides the second g of "gg"). */
  predicate IsBoundKey(c: KeyCode) {
    || c == Ord('j') || c == KeyDown || c == Ord('k') || c == KeyUp || c == KeyNextPage || c == KeyPreviousPage
    || c == KeyHome || c == KeyEnd || c == Ord('G') || c == CtrlE || c == CtrlY
    || c == Ord('l') || c == KeyRight || c == Enter || c == Ord('h') || c == KeyLeft || c == KeyBackspace
  }

  /** The action of a key outside command mode, other than a digit or a resize. */
  function KeyAction(count: nat, history: seq<KeyCode>, c: KeyCode): (a: Action)
    ensures c == Ord('j') || c == KeyDown ==> a == Move(Finite(Repeat(count, 1)))
    ensures c == Ord('k') || c == KeyUp ==> a == Move(Finite(Repeat(count, -1)))
    ensures c == KeyNextPage ==> a == Move(Finite(Repeat(count, 10)))
    ensures c == KeyPreviousPage ==> a == Move(Finite(Repeat(count, -10)))
    ensures c == KeyHome || IsSecondG(history, c) ==> a == Move(ToStart)
    ensures c == KeyEnd || c == Ord('G') ==> a == Move(ToEnd)
    ensures c == CtrlE ==> a == Scroll(Repeat(count, 1))
    ensures c == CtrlY ==> a == Scroll(Repeat(count, -1))
    ensures c == Ord('l') || c == KeyRight || c == Enter ==> a == DownLevel
    ensures c == Ord('h') || c == KeyLeft || c == KeyBackspace ==> a == UpLevel
    ensures a == Nothing <==> !(IsBoundKey(c) || IsSecondG(history, c))
  {
    if c == Ord('j') || c == KeyDown then Move(Finite(Repeat(count, 1)))
    else if c == Ord('k') || c == KeyUp then Move(Finite(Repeat(count, -1)))
    else if c == KeyNextPage then Move(Finite(Repeat(count, 10)))
    else if c == KeyPreviousPage then Move(Finite(Repeat(count, -10)))
    else if c == KeyHome then Move(ToStart)
    else if IsSecondG(history, c) then Move(ToStart)
    else if c == KeyEnd || c == Ord('G') then Move(ToEnd)
    else if c == CtrlE then Scroll(Repeat(count, 1))
    else if c == CtrlY then Scroll(Repeat(count, -1))
    else if c == Ord(':') then Nothing
    else if c == Ord('l') || c == KeyRight || c == Enter then DownLevel
    else if c == Ord('h') || c == KeyLeft || c == KeyBackspace then UpLevel
    else Nothing
  }

  /** A key outside command mode. */
  function NormalReaction(s: KeyState, c: KeyCode): (r: Reaction)
    requires s.command == []
    ensures Wellformed(r.next)
    ensures Ord('0') <= c <= Ord('9') ==> r == Reaction(KeyState(10 * s.count + (c - Ord('0')), Remember(s.history, c), ""), Nothing, None)
    ensures c == KeyResize ==> r == Reaction(s, Redraw, None)
    ensures !(Ord('0') <= c <= Ord('9')) && c != KeyResize ==>
              && r.action == KeyAction(s.count, s.history, c)
              && r.next.count == 0
              && r.next.command == (if c == Ord(':') then ":" else "")
              && r.next.history == (if IsSecondG(s.history, c) || c == Ord(':') then [] else Remember(s.history, c))
              && r.bar == Some(if IsSecondG(s.history, c) then "gg" else [Chr(c)])
  {
    if Ord('0') <= c <= Ord('9') then
      Reaction(KeyState(10 * s.count + (c - Ord('0')), Remember(s.history, c), ""), Nothing, None)
    else if c == KeyResize then
      Reaction(s, Redraw, None)
    else
      var secondG := IsSecondG(s.history, c);
      var opensCommand := c == Ord(':');
      var history := if secondG || opensCommand then [] else Remember(s.history, c);
      var command := if opensCommand then ":" else "";
      Reaction(KeyState(0, history, command), KeyAction(s.count, s.history, c), Some(if secondG then "gg" else KeyText(c)))
  }

  /** One iteration of Tool.main. */
  function React(s: KeyState, c: KeyCode): (r: Reaction)
    requires Wellformed(s)
    ensures Wellformed(r.next)
    ensures |s.history| <= 3 ==> |r.next.history| <= 3
  {
    if s.command != [] then CommandReaction(s, c) else NormalReaction(s, c)
  }

  /** The loop variables after a sequence of keys. */
  function Replay(s: KeyState, keys: seq<KeyCode>): (r: KeyState)
    requires Wellformed(s)
    ensures Wellformed(r)
  {
    if keys == [] then s else React(Replay(s, keys[..|keys| - 1]), keys[|keys| - 1]).next
  }

  /** The actions a sequence of keys takes, one per key. */
  function Actions(s: KeyState, keys: seq<KeyCode>): (r: seq<Action>)
    requires Wellformed(s)
    ensures |r| == |keys|
  {
    if keys == [] then [] else Actions(s, keys[..|keys| - 1]) + [React(Replay(s, keys[..|keys| - 1]), keys[|keys| - 1]).action]
  }

  /** One more key of a run: its reaction to the state so far extends the actions and gives the next state. */
  lemma ReplayNextKey(keys: seq<KeyCode>, i: nat)
    requires i < |keys|
    ensures var r := React(Replay(Initial, keys[..i]), keys[i]);
            && Replay(Initial, keys[..i + 1]) == r.next
            && Actions(Initial, keys[..i + 1]) == Actions(Initial, keys[..i]) + [r.action]
  {
    assert keys[..i + 1][..i] == keys[..i];
  }

  /** The deque never holds more than three keys. */
  lemma {:induction false} ReplayKeepsThreeKeys(keys: seq<KeyCode>)
    ensures |Replay(Initial, keys).history| <= 3
  {
    if keys != [] {
      ReplayKeepsThreeKeys(keys[..|keys| - 1]);
    }
  }

  predicate AllDigitKeys(keys: seq<KeyCode>) {
    forall i :: 0 <= i < |keys| ==> Ord('0') <= keys[i] <= Ord('9')
  }

  /** The characters the keys stand for. */
  function Chars(keys: seq<KeyCode>): (s: string)
    ensures |s| == |keys| && forall i :: 0 <= i < |keys| ==> s[i] == Chr(keys[i])
  {
    seq(|keys|, i requires 0 <= i < |keys| => Chr(keys[i]))
  }

  /** Digits typed outside command mode build the count as the decimal number they spell. */
  lemma {:induction false} DigitsSpellCount(s: KeyState, keys: seq<KeyCode>)
    requires s.command == [] && s.count == 0
    requires AllDigitKeys(keys)
    ensures AllDigits(Chars(keys))
    ensures Replay(s, keys).command == []
    ensures Replay(s, keys).count == ParseNat(Chars(keys))
  {
    if keys != [] {
      var init := keys[..|keys| - 1];
      DigitsSpellCount(s, init);
      assert Chars(keys)[..|keys| - 1] == Chars(init);
    }
  }

  /** Every key outside command mode other than a digit or a resize sets the count back to zero; a resize keeps all three variables. */
  lemma CountResets(s: KeyState, c: KeyCode)
    requires s.command == []
    ensures !(Ord('0') <= c <= Ord('9')) && c != KeyResize ==> React(s, c).next.count == 0
    ensures c == KeyResize ==> React(s, c) == Reaction(s, Redraw, None)
    ensures Ord('0') <= c <= Ord('9') ==> React(s, c).next.count == 10 * s.count + (c - Ord('0'))
  {
  }

  /** The loop ends exactly on Enter after one of :q, :wq, :q!, :wq!. */
  lemma QuitsExactlyOnQuitCommand(s: KeyState, c: KeyCode)
    requires Wellformed(s)
    ensures React(s, c).action == Quit <==> s.command != [] && c == Enter && IsQuitCommand(s.command)
  {
  }

  /** ':' opens a command, forgetting the keys before it; typed characters then build it up, and Backspace on ":" leaves command mode. */
  lemma {:induction false} TypingBuildsCommand(s: KeyState, keys: seq<KeyCode>)
    requires s.command == []
    requires forall i :: 0 <= i < |keys| ==> keys[i] != Enter && keys[i] != KeyBackspace
    ensures Replay(s, [Ord(':')] + keys).command == ":" + Chars(keys)
    ensures Replay(s, [Ord(':')] + keys).history == []
  {
    var all := [Ord(':')] + keys;
    if keys == [] {
      ColonOpensCommand(s);
    } else {
      var init, last := keys[..|keys| - 1], keys[|keys| - 1];
      assert forall i :: 0 <= i < |init| ==> init[i] == keys[i];
      TypingBuildsCommand(s, init);
      assert all == ([Ord(':')] + init) + [last];
      ReplayAppend(s, [Ord(':')] + init, last);
      TypingOneKey(Replay(s, [Ord(':')] + init), last);
      assert Chars(keys) == Chars(init) + [Chr(last)];
    }
  }

  /** Replaying one more key reacts to it in the state the others left. */
  lemma ReplayAppend(s: KeyState, keys: seq<KeyCode>, c: KeyCode)
    requires Wellformed(s)
    ensures Replay(s, keys + [c]) == React(Replay(s, keys), c).next
  {
    assert (keys + [c])[..|keys|] == keys;
  }

  /** ':' outside command mode opens the command ":" and clears the history. */
  lemma ColonOpensCommand(s: KeyState)
    requires s.command == []
    ensures Replay(s, [Ord(':')]).command == ":" && Replay(s, [Ord(':')]).history == []
  {
    assert [Ord(':')][..0] == [];
  }

  /** In command mode a key other than Enter and Backspace appends its character, and the history stays. */
  lemma TypingOneKey(s: KeyState, c: KeyCode)
    requires s.command != [] && s.command[0] == ':' && c != Enter && c != KeyBackspace
    ensures React(s, c).next.command == s.command + [Chr(c)]
    ensures React(s, c).next.history == s.history
  {
  }

  lemma BackspaceLeavesCommandMode(s: KeyState)
    requires s.command == ":"
    ensures React(s, KeyBackspace).next.command == []
    ensures React(s, KeyBackspace).bar == Some("")
  {
  }

  /**
   * The abbreviations of :edit, :submit and :test overlap only in the bare
   * ":" (command words are never empty), which the order of the checks
   * gives to :edit.
   */
  lemma AbbreviationsOverlapOnlyInColon(w: string)
    requires |w| >= 2
    ensures !(IsPrefix(w, ":edit") && IsPrefix(w, ":submit"))
    ensures !(IsPrefix(w, ":edit") && IsPrefix(w, ":test"))
    ensures !(IsPrefix(w, ":submit") && IsPrefix(w, ":test"))
  {
    assert IsPrefix(w, ":edit") ==> w[1] == 'e';
    assert IsPrefix(w, ":submit") ==> w[1] == 's';
    assert IsPrefix(w, ":test") ==> w[1] == 't';
  }

  /**
   * For a first word of two or more characters the order of the checks in
   * ResolveCommand does not matter: an abbreviation of :submit or :test
   * resolves to that command without the earlier checks failing first.
   */
  lemma ResolveCommandIgnoresOrder(command: string)
    requires command != [] && command[0] == ':'
    requires |Split(command)[0]| >= 2
    ensures IsPrefix(Split(command)[0], ":edit") ==> ResolveCommand(command) == Some(EditCommand(|Split(command)|))
    ensures IsPrefix(Split(command)[0], ":submit") ==> ResolveCommand(command) == Some(SubmitCommand)
    ensures IsPrefix(Split(command)[0], ":test") ==> ResolveCommand(command) == Some(TestCommand)
  {
    AbbreviationsOverlapOnlyInColon(Split(command)[0]);
  }

  lemma BareColonEdits(s: KeyState)
    requires s.command == ":"
    ensures React(s, Enter).action == Run(EditCommand(1))
    ensures React(s, Enter).bar == Some("")
  {
    SplitWord(":");
    assert IsPrefix(":", ":edit");
    assert ResolveCommand(s.command) == Some(EditCommand(1));
  }

  /** Every finite move and every scroll goes at least one entry, in the direction of its key. */
  lemma {:induction false} MovesAreNonZero(s: KeyState, c: KeyCode)
    requires Wellformed(s)
    ensures React(s, c).action.Move? && React(s, c).action.step.Finite? ==> React(s, c).action.step.n != 0
    ensures React(s, c).action.Scroll? ==> React(s, c).action.n != 0
    ensures s.command == [] && (c == Ord('j') || c == KeyDown) ==> React(s, c).action == Move(Finite(if s.count == 0 then 1 else s.count))
    ensures s.command == [] && (c == Ord('k') || c == KeyUp) ==> React(s, c).action == Move(Finite(if s.count == 0 then -1 else -(s.count as int)))
  {
    if s.command != [] {
      assert !CommandReaction(s, c).action.Move? && !CommandReaction(s, c).action.Scroll?;
    } else if !(Ord('0') <= c <= Ord('9')) && c != KeyResize {
      assert React(s, c).action == KeyAction(s.count, s.history, c);
    }
  }

  /**
   * "gg" jumps to the top: a g that follows a g which did not itself
   * complete a "gg" moves to the start, clears the history and shows "gg".
   */
  lemma {:induction false} DoubleGJumpsToStart(s: KeyState)
    requires s.command == [] && !IsSecondG(s.history, Ord('g'))
    ensures var first := React(s, Ord('g'));
            var second := React(first.next, Ord('g'));
            && first.action == Nothing
            && second.action == Move(ToStart)
            && second.next == Initial
            && second.bar == Some("gg")
  {
    var first := React(s, Ord('g'));
    assert first.next.history[0] == Ord('g');
  }

  /** A g with nothing before it is an ordinary key: it is only remembered. */
  lemma FirstGIsPlain(s: KeyState)
    requires s.command == [] && s.history == []
    ensures React(s, Ord('g')) == Reaction(KeyState(0, [Ord('g')], ""), Nothing, Some("g"))
  {
  }
}
