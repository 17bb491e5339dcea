/**
  A model of the falling-coins game loop: a paddle at the bottom of a
  600 x 400 window catches coins that fall from the top.  One iteration of
  the game loop (a "tick") moves the paddle, maybe spawns a coin, lets every
  coin fall, catches the coins over the paddle and drops the coins that have
  left the window.

  The pure part (State, Step, Run and the phase functions) is the
  specification; the class Game updates its fields in place as the game loop
  does, and each of its methods is proved against that specification.
 */
module FallCoins {

  // ---------------------------------------------------------------------
  // Constants of the game

  const Width: int := 600
  const Height: int := 400

  const PlayerWidth: int := 40
  const PlayerHeight: int := 10
  /** Top edge of the paddle: 10 pixels above the bottom, less its height. */
  const PlayerY: int := Height - PlayerHeight - 10
  const PlayerSpeed: int := 7
  /** The paddle starts at WIDTH // 2 (floor division of a positive number). */
  const StartX: int := Width / 2

  const CoinRadius: int := 10
  const CoinSpeed: int := 4

  // ---------------------------------------------------------------------
  // Data

  /** A coin is the pair [x, y] of its centre. */
  datatype Coin = Coin(x: int, y: int)

  /** The outcome of the tick's random spawn draw. */
  datatype Spawn = NoSpawn | SpawnAt(x: int)

  /** What one tick reads from outside: the two arrow keys and the spawn draw. */
  datatype Input = Input(left: bool, right: bool, spawn: Spawn)

  /** The whole mutable state of the game. */
  datatype State = State(playerX: int, score: int, coins: seq<Coin>)

  /** The state before the first tick: paddle centred, no coins, no score. */
  const Initial: State := State(StartX, 0, [])

  /** The spawn draw picks x uniformly in [coin_radius, WIDTH - coin_radius]. */
  predicate ValidSpawn(spawn: Spawn)
  {
    spawn.SpawnAt? ==> CoinRadius <= spawn.x <= Width - CoinRadius
  }

  // ---------------------------------------------------------------------
  // Phase 1: the paddle

  /** Left arrow: move left when the paddle is right of the left edge. */
  function LeftStep(x: int, left: bool): int
  {
    if left && x > 0 then x - PlayerSpeed else x
  }

  /** Right arrow: move right when the paddle's left edge is left of WIDTH - player_width. */
  function RightStep(x: int, right: bool): int
  {
    if right && x < Width - PlayerWidth then x + PlayerSpeed else x
  }

  /** Both keys are handled, left first; each guard is tested before its own move. */
  function Moved(x: int, left: bool, right: bool): int
  {
    RightStep(LeftStep(x, left), right)
  }

  /** The bound the paddle really keeps: it can overshoot each edge by less than one step. */
  predicate PaddleInBounds(x: int)
  {
    -PlayerSpeed < x < Width - PlayerWidth + PlayerSpeed
  }

  /** Every position the paddle reaches differs from the start by whole steps. */
  predicate OnPaddleGrid(x: int)
  {
    (x - StartX) % PlayerSpeed == 0
  }

  // ---------------------------------------------------------------------
  // Phase 2: spawning

  /** A successful draw appends one new coin at the top of the window. */
  function Spawned(coins: seq<Coin>, spawn: Spawn): (r: seq<Coin>)
    ensures |coins| <= |r| <= |coins| + 1
    ensures r[..|coins|] == coins
    ensures |r| == |coins| + 1 <==> spawn.SpawnAt?
    ensures spawn.SpawnAt? ==> r[|coins|] == Coin(spawn.x, 0)
  {
    match spawn
    case NoSpawn => coins
    case SpawnAt(x) => coins + [Coin(x, 0)]
  }

  // ---------------------------------------------------------------------
  // Phase 3: falling

  /** One coin falls by coin_speed. */
  function Fall(c: Coin): Coin
  {
    c.(y := c.y + CoinSpeed)
  }

  /** Every coin falls; none moves sideways, none is added, dropped or reordered. */
  function Advanced(coins: seq<Coin>): (r: seq<Coin>)
    ensures |r| == |coins|
    ensures forall i :: 0 <= i < |coins| ==>
              r[i].x == coins[i].x && r[i].y == coins[i].y + CoinSpeed
  {
    if coins == [] then [] else [Fall(coins[0])] + Advanced(coins[1..])
  }

  // ---------------------------------------------------------------------
  // Phase 4: catching

  /**
    The hit test: the coin's lowest point is below the paddle's top edge and
    its centre lies strictly between the paddle's edges.  There is no lower
    bound on y: a coin below the paddle still counts.
   */
  predicate Hit(px: int, c: Coin)
  {
    PlayerY < c.y + CoinRadius && px < c.x < px + PlayerWidth
  }

  /** The coins that the paddle at px does not catch, in their order. */
  function Missed(coins: seq<Coin>, px: int): (r: seq<Coin>)
    ensures |r| <= |coins|
  {
    if coins == [] then []
    else if Hit(px, coins[0]) then Missed(coins[1..], px)
    else [coins[0]] + Missed(coins[1..], px)
  }

  /** How many of the coins the paddle at px catches. */
  function HitCount(coins: seq<Coin>, px: int): (n: nat)
    ensures n <= |coins|
    ensures n == 0 <==> forall c :: c in coins ==> !Hit(px, c)
  {
    if coins == [] then 0
    else (if Hit(px, coins[0]) then 1 else 0) + HitCount(coins[1..], px)
  }

  /** Python's list.remove: drop the first element equal to v (v must be present). */
  function RemoveFirst(s: seq<Coin>, v: Coin): (r: seq<Coin>)
    requires v in s
    ensures |r| == |s| - 1
  {
    if s[0] == v then s[1..] else [s[0]] + RemoveFirst(s[1..], v)
  }

  /** list.remove takes away exactly one copy of v and nothing else. */
  lemma {:induction false} RemoveFirstTakesOne(s: seq<Coin>, v: Coin)
    requires v in s
    ensures multiset(RemoveFirst(s, v)) == multiset(s) - multiset{v}
  {
    assert s == [s[0]] + s[1..];
    if s[0] != v {
      RemoveFirstTakesOne(s[1..], v);
    }
  }

  // ---------------------------------------------------------------------
  // Phase 5: cleanup

  /** Keep, in order, the coins whose y has not reached the bottom of the window. */
  function OnScreen(coins: seq<Coin>): (r: seq<Coin>)
    ensures |r| <= |coins|
  {
    if coins == [] then []
    else if coins[0].y < Height then [coins[0]] + OnScreen(coins[1..])
    else OnScreen(coins[1..])
  }

  // ---------------------------------------------------------------------
  // One tick and a whole game

  /** The five phases of one tick, in the order the game loop runs them. */
  function Step(s: State, input: Input): State
  {
    var px := Moved(s.playerX, input.left, input.right);
    var falling := Advanced(Spawned(s.coins, input.spawn));
    State(px, s.score + HitCount(falling, px), OnScreen(Missed(falling, px)))
  }

  /** The game loop over a finite sequence of inputs; quitting is the end of the sequence. */
  function Run(s: State, inputs: seq<Input>): State
    decreases |inputs|
  {
    if inputs == [] then s else Run(Step(s, inputs[0]), inputs[1..])
  }

  /** A coin as it is after the cleanup of any tick. */
  predicate CoinValid(c: Coin)
  {
    && CoinRadius <= c.x <= Width - CoinRadius
    && 0 < c.y < Height
    && c.y % CoinSpeed == 0
  }

  /** What holds between ticks. */
  predicate Invariant(s: State)
  {
    && PaddleInBounds(s.playerX)
    && OnPaddleGrid(s.playerX)
    && s.score >= 0
    && forall c :: c in s.coins ==> CoinValid(c)
  }

  // ---------------------------------------------------------------------
  // The paddle

  /** Each guard decides its own move.  The left key moves the paddle by exactly one
      step iff x > 0, and otherwise leaves it; the right key then moves it by exactly
      one step iff the position after the left step is left of WIDTH - player_width. */
  lemma PaddleMoves(x: int, left: bool, right: bool)
    ensures Moved(x, left, false) == x - PlayerSpeed <==> left && x > 0
    ensures Moved(x, left, false) == x <==> !(left && x > 0)
    ensures var mid := Moved(x, left, false);
            && (Moved(x, left, right) == mid + PlayerSpeed <==> right && mid < Width - PlayerWidth)
            && (Moved(x, left, right) == mid <==> !(right && mid < Width - PlayerWidth))
  {
  }

  /** Holding both keys away from the edges leaves the paddle where it was. */
  lemma BothKeysCancel(x: int)
    requires 0 < x < Width - PlayerWidth
    ensures Moved(x, true, true) == x
  {
  }

  /** The paddle bound and the step grid are preserved by any key state. */
  lemma MovedKeepsBounds(x: int, left: bool, right: bool)
    requires PaddleInBounds(x) && OnPaddleGrid(x)
    ensures PaddleInBounds(Moved(x, left, right)) && OnPaddleGrid(Moved(x, left, right))
  {
  }

  /** k ticks with the same keys held and no spawn. */
  function Held(k: nat, left: bool, right: bool): (r: seq<Input>)
    ensures |r| == k
    ensures forall i :: 0 <= i < k ==> r[i] == Input(left, right, NoSpawn)
  {
    seq(k, i => Input(left, right, NoSpawn))
  }

  /** A tick with no coins and no spawn only moves the paddle. */
  lemma EmptyStep(x: int, score: int, left: bool, right: bool)
    ensures Step(State(x, score, []), Input(left, right, NoSpawn)) == State(Moved(x, left, right), score, [])
  {
  }

  /** Holding left walks the paddle one step per tick while it is right of the edge. */
  lemma {:induction false} HoldLeft(x: int, score: int, k: nat)
    requires k == 0 || x - PlayerSpeed * (k - 1) > 0
    ensures Run(State(x, score, []), Held(k, true, false)) == State(x - PlayerSpeed * k, score, [])
    decreases k
  {
    if k > 0 {
      EmptyStep(x, score, true, false);
      assert Held(k, true, false)[1..] == Held(k - 1, true, false);
      HoldLeft(x - PlayerSpeed, score, k - 1);
    }
  }

  /** Holding right walks the paddle one step per tick while it is left of WIDTH - player_width. */
  lemma {:induction false} HoldRight(x: int, score: int, k: nat)
    requires k == 0 || x + PlayerSpeed * (k - 1) < Width - PlayerWidth
    ensures Run(State(x, score, []), Held(k, false, true)) == State(x + PlayerSpeed * k, score, [])
    decreases k
  {
    if k > 0 {
      EmptyStep(x, score, false, true);
      assert Held(k, false, true)[1..] == Held(k - 1, false, true);
      HoldRight(x + PlayerSpeed, score, k - 1);
    }
  }

  /** The paddle is not clamped to [0, WIDTH - player_width]: holding left from the
      start moves it a full step on each of the first 43 ticks, the last of which ends
      at x = -1; holding right moves it a full step on each of the first 38, ending at
      x = 566 > WIDTH - player_width. */
  lemma PaddleLeavesWindow(k: nat)
    requires 1 <= k
    ensures k <= 43 ==> Run(Initial, Held(k, true, false)).playerX == StartX - PlayerSpeed * k
    ensures k == 43 ==> Run(Initial, Held(k, true, false)).playerX == -1
    ensures k <= 38 ==> Run(Initial, Held(k, false, true)).playerX == StartX + PlayerSpeed * k
    ensures k == 38 ==> Run(Initial, Held(k, false, true)).playerX == Width - PlayerWidth + 6
  {
    if k <= 43 {
      HoldLeft(StartX, 0, k);
    }
    if k <= 38 {
      HoldRight(StartX, 0, k);
    }
  }

  // ---------------------------------------------------------------------
  // Catching

  /** The coins kept by the collision phase are exactly the ones it does not catch. */
  lemma {:induction false} MissedMembers(coins: seq<Coin>, px: int)
    ensures forall c :: c in Missed(coins, px) <==> c in coins && !Hit(px, c)
  {
    if coins != [] {
      MissedMembers(coins[1..], px);
      assert coins == [coins[0]] + coins[1..];
    }
  }

  /** The coins kept by cleanup are exactly the ones above the bottom of the window. */
  lemma {:induction false} OnScreenMembers(coins: seq<Coin>)
    ensures forall c :: c in OnScreen(coins) <==> c in coins && c.y < Height
  {
    if coins != [] {
      OnScreenMembers(coins[1..]);
      assert coins == [coins[0]] + coins[1..];
    }
  }

  /** Catching splits the coins: each one is either kept or counted, never both. */
  lemma {:induction false} CatchPartition(coins: seq<Coin>, px: int)
    ensures |Missed(coins, px)| + HitCount(coins, px) == |coins|
  {
    if coins != [] {
      CatchPartition(coins[1..], px);
    }
  }

  /** Catching works coin by coin: it distributes over concatenation, so the
      survivors keep their relative order. */
  lemma {:induction false} CatchAppend(a: seq<Coin>, b: seq<Coin>, px: int)
    ensures Missed(a + b, px) == Missed(a, px) + Missed(b, px)
    ensures HitCount(a + b, px) == HitCount(a, px) + HitCount(b, px)
  {
    if a == [] {
      assert a + b == b;
    } else {
      assert (a + b)[1..] == a[1..] + b;
      CatchAppend(a[1..], b, px);
    }
  }

  /** Removing by value finds the first copy of v, which lies after a prefix free of v. */
  lemma {:induction false} RemoveFirstAfter(a: seq<Coin>, v: Coin, b: seq<Coin>)
    requires v !in a
    ensures RemoveFirst(a + ([v] + b), v) == a + b
  {
    var s := a + ([v] + b);
    if a == [] {
      assert s == [v] + b;
      assert s[1..] == b;
    } else {
      assert s[0] == a[0] && a[0] != v;
      assert s[1..] == a[1..] + ([v] + b);
      RemoveFirstAfter(a[1..], v, b);
      assert a + b == [a[0]] + (a[1..] + b);
    }
  }

  /** The collision test of a single coin. */
  lemma CatchSingle(coin: Coin, px: int)
    ensures Missed([coin], px) == (if Hit(px, coin) then [] else [coin])
    ensures HitCount([coin], px) == (if Hit(px, coin) then 1 else 0)
  {
    assert [coin][1..] == [];
  }

  /** A caught coin is removed from the live list by value: the survivors so far
      are untouched and the coin is counted. */
  lemma CatchOneHit(done: seq<Coin>, coin: Coin, rest: seq<Coin>, px: int)
    requires Hit(px, coin)
    ensures RemoveFirst(Missed(done, px) + ([coin] + rest), coin) == Missed(done + [coin], px) + rest
    ensures HitCount(done + [coin], px) == HitCount(done, px) + 1
  {
    var kept := Missed(done, px);
    CatchAppend(done, [coin], px);
    CatchSingle(coin, px);
    assert coin !in kept by {
      MissedMembers(done, px);
    }
    RemoveFirstAfter(kept, coin, rest);
    assert kept + [] == kept;
  }

  /** A missed coin stays where it is and is not counted. */
  lemma CatchOneMiss(done: seq<Coin>, coin: Coin, rest: seq<Coin>, px: int)
    requires !Hit(px, coin)
    ensures Missed(done, px) + ([coin] + rest) == Missed(done + [coin], px) + rest
    ensures HitCount(done + [coin], px) == HitCount(done, px)
  {
    var kept := Missed(done, px);
    CatchAppend(done, [coin], px);
    CatchSingle(coin, px);
    assert kept + ([coin] + rest) == (kept + [coin]) + rest;
  }

  /** Turn i of the collision loop over the snapshot, stated on the live list it
      starts from: the survivors of the first i coins followed by the coins not yet tested. */
  lemma CatchTurn(snapshot: seq<Coin>, i: nat, px: int)
    requires i < |snapshot|
    ensures var live := Missed(snapshot[..i], px) + snapshot[i..];
            var coin := snapshot[i];
            && coin in live
            && (if Hit(px, coin) then RemoveFirst(live, coin) else live)
               == Missed(snapshot[..i + 1], px) + snapshot[i + 1..]
            && HitCount(snapshot[..i + 1], px)
               == HitCount(snapshot[..i], px) + (if Hit(px, coin) then 1 else 0)
  {
    var coin, done, rest := snapshot[i], snapshot[..i], snapshot[i + 1..];
    assert snapshot[i..] == [coin] + rest;
    assert snapshot[..i + 1] == done + [coin];
    assert (Missed(done, px) + ([coin] + rest))[|Missed(done, px)|] == coin;
    if Hit(px, coin) {
      CatchOneHit(done, coin, rest, px);
    } else {
      CatchOneMiss(done, coin, rest, px);
    }
  }

  /** Cleanup works coin by coin as well. */
  lemma {:induction false} OnScreenAppend(a: seq<Coin>, b: seq<Coin>)
    ensures OnScreen(a + b) == OnScreen(a) + OnScreen(b)
  {
    if a == [] {
      assert a + b == b;
    } else {
      var ab := a + b;
      assert ab[0] == a[0] && ab[1..] == a[1..] + b;
      OnScreenAppend(a[1..], b);
      if a[0].y < Height {
        assert OnScreen(ab) == [a[0]] + OnScreen(a[1..] + b);
        assert OnScreen(a) == [a[0]] + OnScreen(a[1..]);
      } else {
        assert OnScreen(ab) == OnScreen(a[1..] + b);
        assert OnScreen(a) == OnScreen(a[1..]);
      }
    }
  }

  /** A coin still counts as caught when it is already below the paddle. */
  lemma HitHasNoFloor(px: int, c: Coin, deeper: int)
    requires Hit(px, c) && deeper >= c.y
    ensures Hit(px, Coin(c.x, deeper))
  {
  }

  /** A coin that falls to y = HEIGHT over the paddle scores in the same tick
      in which cleanup would have dropped it. */
  lemma CaughtAtBottomEdge()
    ensures Step(State(StartX, 0, [Coin(StartX + 10, Height - CoinSpeed)]), Input(false, false, NoSpawn))
            == State(StartX, 1, [])
  {
  }

  // ---------------------------------------------------------------------
  // Properties of one tick

  /** The score grows by exactly the number of coins the collision phase removes. */
  lemma StepScore(s: State, input: Input)
    ensures var falling := Advanced(Spawned(s.coins, input.spawn));
            var px := Step(s, input).playerX;
            Step(s, input).score == s.score + (|falling| - |Missed(falling, px)|)
    ensures Step(s, input).score >= s.score
  {
    var falling := Advanced(Spawned(s.coins, input.spawn));
    CatchPartition(falling, Moved(s.playerX, input.left, input.right));
  }

  /** After a tick no coin is left that the paddle, where it now is, would catch. */
  lemma StepLeavesNothingToCatch(s: State, input: Input)
    ensures forall c :: c in Step(s, input).coins ==> !Hit(Step(s, input).playerX, c)
  {
    var px := Moved(s.playerX, input.left, input.right);
    var kept := Missed(Advanced(Spawned(s.coins, input.spawn)), px);
    MissedMembers(Advanced(Spawned(s.coins, input.spawn)), px);
    OnScreenMembers(kept);
  }

  /** At most one coin is added per tick; every surviving coin is an old coin that
      fell by coin_speed, or the new coin, which ends its first tick at y = coin_speed. */
  lemma StepCoins(s: State, input: Input)
    ensures |Step(s, input).coins| <= |s.coins| + 1
    ensures forall c :: c in Step(s, input).coins ==>
              Coin(c.x, c.y - CoinSpeed) in s.coins
              || (input.spawn.SpawnAt? && c == Coin(input.spawn.x, CoinSpeed))
  {
    var sp := Spawned(s.coins, input.spawn);
    var falling := Advanced(sp);
    var px := Moved(s.playerX, input.left, input.right);
    MissedMembers(falling, px);
    OnScreenMembers(Missed(falling, px));
    forall c | c in Step(s, input).coins
      ensures Coin(c.x, c.y - CoinSpeed) in s.coins
              || (input.spawn.SpawnAt? && c == Coin(input.spawn.x, CoinSpeed))
    {
      assert c in falling;
      var i :| 0 <= i < |falling| && falling[i] == c;
      if i < |s.coins| {
        assert sp[i] == s.coins[i];
        assert Coin(c.x, c.y - CoinSpeed) == s.coins[i];
      }
    }
  }

  /** A spawned coin is never caught or dropped in its first tick: it is the
      last coin afterwards, at y = coin_speed. */
  lemma StepSpawnedCoinIsLast(s: State, input: Input)
    requires input.spawn.SpawnAt?
    ensures var r := Step(s, input).coins;
            |r| > 0 && r[|r| - 1] == Coin(input.spawn.x, CoinSpeed)
  {
    var px := Moved(s.playerX, input.left, input.right);
    var newCoin := Coin(input.spawn.x, CoinSpeed);
    var falling := Advanced(Spawned(s.coins, input.spawn));
    assert falling == Advanced(s.coins) + [newCoin];
    CatchAppend(Advanced(s.coins), [newCoin], px);
    var kept := Missed(Advanced(s.coins), px);
    assert Missed([newCoin], px) == [newCoin];
    OnScreenAppend(kept, [newCoin]);
    assert OnScreen([newCoin]) == [newCoin];
  }

  /** Where a coin may be between the spawn and the advance phase: a valid coin,
      or a new one at the top. */
  predicate CoinPlaced(c: Coin)
  {
    && CoinRadius <= c.x <= Width - CoinRadius
    && 0 <= c.y < Height
    && c.y % CoinSpeed == 0
  }

  /** Spawning a coin from the source's range keeps every coin placed. */
  lemma SpawnedPlaced(coins: seq<Coin>, spawn: Spawn)
    requires forall c :: c in coins ==> CoinValid(c)
    requires ValidSpawn(spawn)
    ensures forall c :: c in Spawned(coins, spawn) ==> CoinPlaced(c)
  {
    var sp := Spawned(coins, spawn);
    forall c | c in sp
      ensures CoinPlaced(c)
    {
      var i :| 0 <= i < |sp| && sp[i] == c;
      if i < |coins| {
        assert sp[i] == coins[i];
        assert coins[i] in coins;
      }
    }
  }

  /** One placed coin, after falling, is strictly below the top on its coin_speed grid. */
  lemma FallPlaced(d: Coin)
    requires CoinPlaced(d)
    ensures CoinRadius <= Fall(d).x <= Width - CoinRadius && 0 < Fall(d).y && Fall(d).y % CoinSpeed == 0
  {
    assert Fall(d).y == d.y + CoinSpeed;
  }

  /** After falling, every placed coin is strictly below the top on its coin_speed grid. */
  lemma AdvancedPlaced(coins: seq<Coin>)
    requires forall c :: c in coins ==> CoinPlaced(c)
    ensures forall c :: c in Advanced(coins) ==>
              CoinRadius <= c.x <= Width - CoinRadius && 0 < c.y && c.y % CoinSpeed == 0
  {
    var r := Advanced(coins);
    forall c | c in r
      ensures CoinRadius <= c.x <= Width - CoinRadius && 0 < c.y && c.y % CoinSpeed == 0
    {
      var i :| 0 <= i < |r| && r[i] == c;
      assert coins[i] in coins;
      FallPlaced(coins[i]);
      assert c == Fall(coins[i]);
    }
  }

  /** Every tick keeps the invariant, given a spawn draw from the source's range. */
  lemma StepKeepsInvariant(s: State, input: Input)
    requires Invariant(s) && ValidSpawn(input.spawn)
    ensures Invariant(Step(s, input))
  {
    MovedKeepsBounds(s.playerX, input.left, input.right);
    var px := Moved(s.playerX, input.left, input.right);
    var sp := Spawned(s.coins, input.spawn);
    SpawnedPlaced(s.coins, input.spawn);
    var falling := Advanced(sp);
    AdvancedPlaced(sp);
    var kept := Missed(falling, px);
    MissedMembers(falling, px);
    OnScreenMembers(kept);
    assert Step(s, input).coins == OnScreen(kept);
    forall c | c in OnScreen(kept)
      ensures CoinValid(c)
    {
      assert c in kept;
      assert c in falling;
    }
  }

  /** What a single tick promises its caller: the score does not go down, and the
      invariant is kept when the spawn draw is in the source's range. */
  lemma StepFacts(s: State, input: Input)
    ensures Step(s, input).score >= s.score
    ensures Invariant(s) && ValidSpawn(input.spawn) ==> Invariant(Step(s, input))
  {
    StepScore(s, input);
    if Invariant(s) && ValidSpawn(input.spawn) {
      StepKeepsInvariant(s, input);
    }
  }

  // ---------------------------------------------------------------------
  // Properties of a whole game

  /** Over any run the invariant holds and the score never goes down. */
  lemma {:induction false} RunKeepsInvariant(s: State, inputs: seq<Input>)
    requires Invariant(s)
    requires forall i :: 0 <= i < |inputs| ==> ValidSpawn(inputs[i].spawn)
    ensures Invariant(Run(s, inputs))
    ensures Run(s, inputs).score >= s.score
    decreases |inputs|
  {
    if inputs != [] {
      StepKeepsInvariant(s, inputs[0]);
      StepScore(s, inputs[0]);
      RunKeepsInvariant(Step(s, inputs[0]), inputs[1..]);
    }
  }

  /** From the start of a game, every reachable state satisfies the invariant. */
  lemma GameInvariant(inputs: seq<Input>)
    requires forall i :: 0 <= i < |inputs| ==> ValidSpawn(inputs[i].spawn)
    ensures Invariant(Run(Initial, inputs))
  {
    RunKeepsInvariant(Initial, inputs);
  }

  // ---------------------------------------------------------------------
  // The game loop, updating its state in place

  class Game {
    var playerX: int
    var score: int
    var coins: seq<Coin>

    /** The state as a value. */
    function Abs(): State
      reads this
    {
      State(playerX, score, coins)
    }

    /** The module-level setup before the loop. */
    constructor ()
      ensures Abs() == Initial
    {
      playerX := StartX;
      score := 0;
      coins := [];
    }

    /** Phase 1: read the held keys and move the paddle. */
    method MovePaddle(left: bool, right: bool)
      modifies this`playerX
      ensures playerX == Moved(old(playerX), left, right)
    {
      if left && playerX > 0 {
        playerX := playerX - PlayerSpeed;
      }
      if right && playerX < Width - PlayerWidth {
        playerX := playerX + PlayerSpeed;
      }
    }

    /** Phase 2: append the drawn coin, if any. */
    method SpawnCoin(spawn: Spawn)
      modifies this`coins
      ensures coins == Spawned(old(coins), spawn)
    {
      if spawn.SpawnAt? {
        coins := coins + [Coin(spawn.x, 0)];
      }
    }

    /** Phase 3: add coin_speed to the y of each coin in turn. */
    method AdvanceCoins()
      modifies this`coins
      ensures coins == Advanced(old(coins))
    {
      var n := |coins|;
      for i := 0 to n
        invariant |coins| == n
        invariant forall j :: 0 <= j < i ==> coins[j] == Fall(old(coins)[j])
        invariant forall j :: i <= j < n ==> coins[j] == old(coins)[j]
      {
        coins := coins[i := coins[i].(y := coins[i].y + CoinSpeed)];
      }
    }

    /** Phase 4: walk a snapshot of the coins; each coin over the paddle adds one
        to the score and is removed from the live list by value.  The live list and
        the score are worked on in locals and stored back once the walk is over;
        nothing reads the fields in between. */
    method CatchCoins()
      modifies this`coins, this`score
      ensures coins == Missed(old(coins), playerX)
      ensures score == old(score) + HitCount(old(coins), playerX)
    {
      var snapshot := coins;
      var live, caught := coins, score;
      for i := 0 to |snapshot|
        invariant live == Missed(snapshot[..i], playerX) + snapshot[i..]
        invariant caught == old(score) + HitCount(snapshot[..i], playerX)
      {
        var coin := snapshot[i];
        CatchTurn(snapshot, i, playerX);
        if Hit(playerX, coin) {
          caught := caught + 1;
          live := RemoveFirst(live, coin);
        }
      }
      assert snapshot[..|snapshot|] == snapshot;
      coins, score := live, caught;
    }

    /** Phase 5: keep only the coins above the bottom of the window. */
    method DropFallen()
      modifies this`coins
      ensures coins == OnScreen(old(coins))
    {
      coins := OnScreen(coins);
    }

    /** One iteration of the game loop, drawing left out. */
    method Tick(left: bool, right: bool, spawn: Spawn)
      modifies this
      ensures Abs() == Step(old(Abs()), Input(left, right, spawn))
      ensures old(Invariant(Abs())) && ValidSpawn(spawn) ==> Invariant(Abs())
      ensures score >= old(score)
    {
      ghost var before, input := Abs(), Input(left, right, spawn);
      MovePaddle(left, right);
      SpawnCoin(spawn);
      AdvanceCoins();
      ghost var falling := coins;
      CatchCoins();
      DropFallen();
      assert Abs() == Step(before, input) by {
        assert falling == Advanced(Spawned(before.coins, spawn));
        assert playerX == Moved(before.playerX, left, right);
      }
      StepFacts(before, input);
    }

    /** The game loop, one tick per input, until the inputs (and the game) end. */
    method Play(inputs: seq<Input>)
      modifies this
      ensures Abs() == Run(old(Abs()), inputs)
    {
      for i := 0 to |inputs|
        invariant Run(old(Abs()), inputs) == Run(Abs(), inputs[i..])
      {
        assert inputs[i..][1..] == inputs[i + 1..];
        Tick(inputs[i].left, inputs[i].right, inputs[i].spawn);
      }
    }
  }
}
