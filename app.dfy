/**
 * The application's game state (src/main.rs): two states, the game starts
 * `Out`, the startup system asks for `InGame`, and the key handler toggles
 * between them. The board plugin builds the board each time `InGame` is
 * entered.
 *
 * The engine's `State` resource is modelled by the current state and at most
 * one queued transition: `set` only schedules, and the engine applies the
 * queued transition at its next state stage.
 */
module App {
  import opened Wrappers
  import opened BoardOptions
  import opened BoardResource
  import opened BoardPlugin

  datatype AppState = InGame | Out

  /** The other state. */
  function Other(s: AppState): AppState {
    if s == InGame then Out else InGame
  }

  /**
   * The transition `state_handler` asks for in one frame: C leaves the game,
   * G enters it, and each key only acts from the state it leaves. A key
   * counts in the frame it goes down (`just_pressed`), not while it is held.
   */
  function Requested(current: AppState, cJustPressed: bool, gJustPressed: bool): (r: Option<AppState>)
    ensures r == Some(Out) <==> cJustPressed && current == InGame
    ensures r == Some(InGame) <==> gJustPressed && current == Out
    ensures r.Some? ==> r.value == Other(current)
  {
    if cJustPressed && current == InGame then Some(Out)
    else if gJustPressed && current == Out then Some(InGame)
    else None
  }

  /** The state once the transition asked for in one frame has been applied. */
  function After(current: AppState, cJustPressed: bool, gJustPressed: bool): (s: AppState)
    ensures s != current <==> Requested(current, cJustPressed, gJustPressed).Some?
    ensures s == current || s == Other(current)
  {
    match Requested(current, cJustPressed, gJustPressed)
    case Some(s) => s
    case None => current
  }

  /**
   * A frame changes the state at most once: with both keys going down in the
   * same frame the state flips exactly once, because both checks read the state of the frame's start.
   */
  lemma BothKeysToggleOnce(s: AppState)
    ensures After(s, true, true) == Other(s)
    ensures After(After(s, true, true), true, true) == s
  {
  }

  /** The key that does not leave the current state is ignored. */
  lemma IdleKeyIgnored(s: AppState, cJustPressed: bool, gJustPressed: bool)
    ensures s == InGame ==> After(s, cJustPressed, gJustPressed) == After(s, cJustPressed, false)
    ensures s == Out ==> After(s, cJustPressed, gJustPressed) == After(s, false, gJustPressed)
    ensures !cJustPressed && !gJustPressed ==> After(s, cJustPressed, gJustPressed) == s
  {
  }

  /** The engine's `State<AppState>` resource. */
  class GameState {
    var current: AppState
    var queued: Option<AppState>

    /** A queued transition always leads somewhere else. */
    predicate Valid()
      reads this
    {
      queued.Some? ==> queued.value != current
    }

    /** `add_state(AppState::Out)`: the game starts out of play with nothing queued. */
    constructor ()
      ensures Valid() && current == Out && queued == None
    {
      current := Out;
      queued := None;
    }

    /**
     * `State::set` followed by `unwrap`: schedules a transition. The caller
     * must ask for another state while none is queued, or the `unwrap` panics.
     */
    method Set(target: AppState)
      requires Valid() && queued.None? && target != current
      modifies this
      ensures Valid() && current == old(current) && queued == Some(target)
    {
      queued := Some(target);
    }

    /**
     * `state_handler`: queues the transition the keys ask for. The model
     * assumes it runs when no transition is queued, that is after the state
     * stage has applied any earlier request; the source adds the system
     * without ordering it against the state stage (see the README line on
     * the engine's `State` resource).
     */
    method HandleKeys(cJustPressed: bool, gJustPressed: bool)
      requires Valid() && queued.None?
      modifies this
      ensures Valid() && current == old(current)
      ensures queued == Requested(old(current), cJustPressed, gJustPressed)
    {
      if cJustPressed {
        if current == InGame {
          Set(Out);
        }
      }
      if gJustPressed {
        if current == Out {
          Set(InGame);
        }
      }
    }

    /** `setup_board`: the startup system, run while the state is still `Out`, asks to enter the game. */
    method SetupBoard()
      requires Valid() && queued.None? && current == Out
      modifies this
      ensures Valid() && current == Out && queued == Some(InGame)
    {
      Set(InGame);
    }

    /**
     * The engine's state stage: applies the queued transition. Entering
     * `InGame` runs the board plugin's `create_board` with the root entity
     * the engine allocates; leaving it removes nothing, as no exit system is
     * registered. `spawned` holds the children spawned by the stage.
     */
    method ApplyQueued(resources: Resources, options: BoardOptions, entity: EntityId)
      returns (spawned: seq<Element>)
      requires Valid()
      modifies this, resources
      ensures Valid() && queued == None
      ensures current == if old(queued).Some? then old(queued).value else old(current)
      ensures old(queued) == Some(InGame) ==> resources.board == Some(Layout(options, entity).board)
      ensures old(queued) == Some(InGame) ==> spawned == Layout(options, entity).children
      ensures old(queued) != Some(InGame) ==> resources.board == old(resources.board) && spawned == []
    {
      spawned := [];
      if queued.Some? {
        current := queued.value;
        queued := None;
        if current == InGame {
          var origin;
          origin, spawned := CreateBoard(resources, options, entity);
        }
      }
    }

    /**
     * One frame after start-up: `state_handler` reads which keys went down
     * in this frame, then the
     * next state stage applies what it asked for. Entering the game builds
     * a fresh board; leaving it keeps the last one.
     */
    method Frame(cJustPressed: bool, gJustPressed: bool, resources: Resources, options: BoardOptions, entity: EntityId)
      returns (spawned: seq<Element>)
      requires Valid() && queued.None?
      modifies this, resources
      ensures Valid() && queued == None
      ensures current == After(old(current), cJustPressed, gJustPressed)
      ensures old(current) == Out && current == InGame ==>
                resources.board == Some(Layout(options, entity).board) && spawned == Layout(options, entity).children
      ensures !(old(current) == Out && current == InGame) ==> resources.board == old(resources.board) && spawned == []
    {
      HandleKeys(cJustPressed, gJustPressed);
      spawned := ApplyQueued(resources, options, entity);
    }
  }

  /**
   * Start-up, assuming the board options and assets resources are present:
   * the state starts `Out`, `setup_board` asks for `InGame`, and the first
   * state stage enters the game and builds the board.
   */
  method StartUp(resources: Resources, options: BoardOptions, entity: EntityId)
    returns (game: GameState, spawned: seq<Element>)
    modifies resources
    ensures fresh(game) && game.Valid()
    ensures game.current == InGame && game.queued == None
    ensures resources.board == Some(Layout(options, entity).board)
    ensures spawned == Layout(options, entity).children
  {
    game := new GameState();
    game.SetupBoard();
    spawned := game.ApplyQueued(resources, options, entity);
  }
}
