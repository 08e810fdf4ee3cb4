/**
 * The character-select screen: each player moves a cursor over the roster
 * (player 1 with A and D, player 2 with the Left and Right arrows), locks it
 * in (W, Up) or unlocks it (S, Down); Space starts the battle once both are
 * ready, Escape goes back to the main menu.
 */
module CharacterSelect {
  /** One entry of the roster, with the stats the screen shows. */
  datatype Character = Character(name: string, health: int, speed: int, power: int)

  const ROSTER: seq<Character> := [
    Character("Red Samurai", 100, 6, 8),
    Character("Blue Ninja", 80, 8, 6),
    Character("Green Ronin", 120, 5, 9)
  ]

  /** The keys the screen reacts to; every other key is Other. */
  datatype Key = A | D | W | S | Left | Right | Up | Down | Space | Escape | Other

  /** The events the screen's loop reads: the window being closed, a key press, or anything else. */
  datatype Event = Quit | KeyDown(key: Key) | Ignored

  /** What the screen does next. */
  datatype Outcome = Choosing | ToMainMenu | StartBattle | Exit

  /** The two cursors (indices into ROSTER) and the two ready flags. */
  datatype Selection = Selection(p1: int, p2: int, ready1: bool, ready2: bool)
  {
    predicate Valid()
    {
      0 <= p1 < |ROSTER| && 0 <= p2 < |ROSTER|
    }
  }

  datatype Reaction = Reaction(sel: Selection, outcome: Outcome)

  /** The screen as entered: player 1 on the first character, player 2 on the second, neither ready. */
  const START: Selection := Selection(0, 1, false, false)

  /** Player 1's controls: A and D move the cursor and W locks it while unlocked; S unlocks. */
  function Player1Key(s: Selection, key: Key): Selection
  {
    if !s.ready1 then
      if key == A then s.(p1 := (s.p1 - 1) % |ROSTER|)
      else if key == D then s.(p1 := (s.p1 + 1) % |ROSTER|)
      else if key == W then s.(ready1 := true)
      else s
    else if key == S then s.(ready1 := false)
    else s
  }

  /** Player 2's controls: the Left and Right arrows move, Up locks while unlocked; Down unlocks. */
  function Player2Key(s: Selection, key: Key): Selection
  {
    if !s.ready2 then
      if key == Left then s.(p2 := (s.p2 - 1) % |ROSTER|)
      else if key == Right then s.(p2 := (s.p2 + 1) % |ROSTER|)
      else if key == Up then s.(ready2 := true)
      else s
    else if key == Down then s.(ready2 := false)
    else s
  }

  /** One key press: Escape first, then player 1's block, player 2's block, and the start test. */
  function OnKey(s: Selection, key: Key): Reaction
  {
    if key == Escape then Reaction(s, ToMainMenu)
    else
      var t := Player2Key(Player1Key(s, key), key);
      Reaction(t, if t.ready1 && t.ready2 && key == Space then StartBattle else Choosing)
  }

  function OnEvent(s: Selection, e: Event): Reaction
  {
    match e
    case Quit => Reaction(s, Exit)
    case KeyDown(key) => OnKey(s, key)
    case Ignored => Reaction(s, Choosing)
  }

  /** The events in order, until one of them leaves the screen. */
  function Handle(s: Selection, events: seq<Event>): Reaction
    decreases |events|
  {
    if events == [] then Reaction(s, Choosing)
    else
      var r := OnEvent(s, events[0]);
      if r.outcome != Choosing then r else Handle(r.sel, events[1..])
  }

  /** The screen's loop over its events, from the entry state. */
  method Run(events: seq<Event>) returns (sel: Selection, outcome: Outcome)
    ensures Reaction(sel, outcome) == Handle(START, events)
  {
    sel, outcome := START, Choosing;
    var i := 0;
    while i < |events| && outcome == Choosing
      invariant 0 <= i <= |events|
      invariant Handle(START, events) == (if outcome == Choosing then Handle(sel, events[i..]) else Reaction(sel, outcome))
    {
      assert events[i..][1..] == events[i + 1..];
      var r := OnEvent(sel, events[i]);
      sel, outcome := r.sel, r.outcome;
      i := i + 1;
    }
  }

  // ---------------------------------------------------------------- laws

  lemma StartValid()
    ensures START.Valid()
  {
  }

  /** The cursors never leave the roster. */
  lemma OnEventKeepsValid(s: Selection, e: Event)
    requires s.Valid()
    ensures OnEvent(s, e).sel.Valid()
  {
  }

  lemma {:induction false} HandleKeepsValid(s: Selection, events: seq<Event>)
    requires s.Valid()
    ensures Handle(s, events).sel.Valid()
    decreases |events|
  {
    if events != [] {
      OnEventKeepsValid(s, events[0]);
      HandleKeepsValid(OnEvent(s, events[0]).sel, events[1..]);
    }
  }

  /** Moving right wraps from the last character to the first, and left from the first to the last. */
  lemma CursorWraps(s: Selection)
    requires s.Valid() && !s.ready1 && !s.ready2
    ensures s.p1 == |ROSTER| - 1 ==> OnKey(s, D).sel.p1 == 0
    ensures s.p1 == 0 ==> OnKey(s, A).sel.p1 == |ROSTER| - 1
    ensures s.p2 == |ROSTER| - 1 ==> OnKey(s, Right).sel.p2 == 0
    ensures s.p2 == 0 ==> OnKey(s, Left).sel.p2 == |ROSTER| - 1
  {
  }

  /** Left undoes right for an unlocked cursor, and pressing right once per character comes back to the start. */
  lemma CursorRoundTrip(s: Selection)
    requires s.Valid() && !s.ready1
    ensures OnKey(OnKey(s, D).sel, A).sel == s
    ensures OnKey(OnKey(OnKey(s, D).sel, D).sel, D).sel == s
  {
  }

  /** A locked cursor does not move; only the unlock key releases it. */
  lemma LockedCursorStays(s: Selection, key: Key)
    requires s.ready1
    ensures OnKey(s, key).sel.p1 == s.p1
    ensures OnKey(s, key).sel.ready1 <==> key != S
  {
  }

  /** Player 1's keys never touch player 2's side, and player 2's never touch player 1's. */
  lemma SidesIndependent(s: Selection)
    ensures forall key :: key in {A, D, W, S} ==>
      OnKey(s, key).sel.p2 == s.p2 && OnKey(s, key).sel.ready2 == s.ready2
    ensures forall key :: key in {Left, Right, Up, Down} ==>
      OnKey(s, key).sel.p1 == s.p1 && OnKey(s, key).sel.ready1 == s.ready1
  {
  }

  /** The battle starts exactly on Space with both players ready. */
  lemma StartRule(s: Selection, key: Key)
    ensures OnKey(s, key).outcome == StartBattle <==> key == Space && s.ready1 && s.ready2
    ensures OnKey(s, key).outcome == ToMainMenu <==> key == Escape
  {
  }

  /** The battle starts only from a selection where both players are locked in. */
  lemma {:induction false} BattleNeedsBothReady(s: Selection, events: seq<Event>)
    ensures Handle(s, events).outcome == StartBattle ==> Handle(s, events).sel.ready1 && Handle(s, events).sel.ready2
    decreases |events|
  {
    if events != [] {
      var r := OnEvent(s, events[0]);
      if r.outcome == Choosing {
        BattleNeedsBothReady(r.sel, events[1..]);
      }
    }
  }

  /** From the entry state the battle cannot start before both players have pressed their lock keys: at least three events. */
  lemma {:induction false} QuickestStart(events: seq<Event>)
    requires Handle(START, events).outcome == StartBattle
    ensures |events| >= 3
  {
    BattleNeedsBothReady(START, events);
    ReadyCount(START, events);
  }

  /** Each event locks in at most one player, so n events from no-one-ready leave at most n ready. */
  lemma {:induction false} ReadyCount(s: Selection, events: seq<Event>)
    ensures var r := Handle(s, events);
      Ready(r.sel) + (if r.outcome == StartBattle then 1 else 0) <= Ready(s) + |events|
    decreases |events|
  {
    if events != [] {
      var r := OnEvent(s, events[0]);
      assert Ready(r.sel) + (if r.outcome == StartBattle then 1 else 0) <= Ready(s) + 1;
      if r.outcome == Choosing {
        ReadyCount(r.sel, events[1..]);
      }
    }
  }

  /** How many players are locked in. */
  function Ready(s: Selection): nat
  {
    (if s.ready1 then 1 else 0) + (if s.ready2 then 1 else 0)
  }
}
