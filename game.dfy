/**
 * BrickerGameManager: the session. It owns the simulation's object
 * collection, the turbo flag, the primary ball, the extra paddle and the
 * health display, builds the level, runs the strategies the bricks carry,
 * and once per frame settles lives, win and loss, culls what left the
 * window, and expires the extra paddle and turbo.
 *
 * The object collection is a map from identities to objects (kind and
 * centre) plus the set of identities currently in the collection; View()
 * reads the session as the World on which the strategies are specified.
 */
module Game {
  import opened Basics
  import opened Strategies
  import opened Effects
  import opened Entities
  import opened Health

  const WALL_SIZE: real := 15.0
  const BRICK_HEIGHT: real := 15.0
  /** Turbo ends when the primary ball has counted this many collisions. */
  const MAX_TURBO: int := 6
  /** The extra paddle goes when it has counted this many hits. */
  const EXTRA_PADDLE_LIVES: int := 4

  /** What the frame asks of the window: the lose dialog, the win dialog. */
  datatype Outcome = Outcome(lost: bool, won: bool)

  /** The identities among `ids` whose objects are tagged "brick". */
  function Bricks(ids: set<Id>, objs: map<Id, Obj>): set<Id> {
    set i | i in ids && i in objs && TagOf(objs[i].kind) == BrickTag
  }

  /** outOfBounds: the centre lies strictly outside the window on some side. */
  predicate OutOfBounds(c: Vec, width: real, height: real) {
    c.x > width || c.x < 0.0 || c.y > height || c.y < 0.0
  }

  /** What removeAllOutOfBounds leaves: the members whose centre is inside the window (edges included). */
  function InWindow(ids: set<Id>, objs: map<Id, Obj>, width: real, height: real): set<Id>
    requires ids <= objs.Keys
  {
    set i | i in ids && !OutOfBounds(objs[i].center, width, height)
  }

  /** A new ball joining the collection adds no brick. */
  lemma NewBallNoBrick(ids: set<Id>, objs: map<Id, Obj>, id: Id, o: Obj)
    requires id !in objs && ids <= objs.Keys && o.kind == BallObj
    ensures Bricks(ids + {id}, objs[id := o]) == Bricks(ids, objs)
  {
  }

  /** Adding one identity to the visited ones adds one brick exactly when it is tagged "brick". */
  lemma CountStep(seen: set<Id>, o: Id, objs: map<Id, Obj>)
    requires o !in seen && o in objs
    ensures |Bricks(seen + {o}, objs)| == |Bricks(seen, objs)| + (if TagOf(objs[o].kind) == BrickTag then 1 else 0)
  {
    if TagOf(objs[o].kind) == BrickTag {
      assert Bricks(seen + {o}, objs) == Bricks(seen, objs) + {o};
    } else {
      assert Bricks(seen + {o}, objs) == Bricks(seen, objs);
    }
  }

  /** The culled collection holds exactly the objects of the old one whose centre has 0 <= x <= width and 0 <= y <= height. */
  lemma InWindowMeaning(ids: set<Id>, objs: map<Id, Obj>, width: real, height: real, i: Id)
    requires ids <= objs.Keys
    ensures i in InWindow(ids, objs, width, height) <==>
      i in ids && 0.0 <= objs[i].center.x <= width && 0.0 <= objs[i].center.y <= height
  {
  }

  /** createBall's velocity: BALL_SPEED on both axes, each sign flipped by its own coin. */
  function InitialVelocity(flipX: bool, flipY: bool): Vec {
    Vec(if flipX then -BALL_SPEED else BALL_SPEED, if flipY then -BALL_SPEED else BALL_SPEED)
  }

  /** A new ball moves diagonally at the base speed, in the quadrant the coins pick. */
  lemma InitialVelocitySpeed(flipX: bool, flipY: bool)
    ensures Norm2(InitialVelocity(flipX, flipY)) == Speed2(false)
    ensures InitialVelocity(flipX, flipY).x < 0.0 <==> flipX
    ensures InitialVelocity(flipX, flipY).y < 0.0 <==> flipY
  {
    var v := InitialVelocity(flipX, flipY);
    assert v.x * v.x == BALL_SPEED * BALL_SPEED;
    assert v.y * v.y == BALL_SPEED * BALL_SPEED;
  }

  /** The replacement ball's velocity: createBall's, sped up once when turbo is on. */
  function NewBallVelocity(flipX: bool, flipY: bool, turbo: bool): Vec {
    if turbo then Scale(InitialVelocity(flipX, flipY), TURBO_FACTOR) else InitialVelocity(flipX, flipY)
  }

  /** A replacement ball is boosted exactly when turbo is on. */
  lemma NewBallSpeed(flipX: bool, flipY: bool, turbo: bool)
    ensures Norm2(NewBallVelocity(flipX, flipY, turbo)) == Speed2(turbo)
  {
    InitialVelocitySpeed(flipX, flipY);
    ScaleNorm2(InitialVelocity(flipX, flipY), TURBO_FACTOR);
  }

  /** The lives after updateHealth: one more when a caught heart is owed and there is room. */
  function SettledHealth(cur: int, owed: bool): int {
    cur + (if owed && cur < MAX_HEARTS then 1 else 0)
  }

  /** The lives after removeHeart: one fewer, never below 0. */
  function LoseLife(h: int): int {
    if h > 0 then h - 1 else 0
  }

  /** Width of each brick: the space between the side walls shared by the columns. */
  function BrickWidth(width: real, cols: int): real {
    if cols > 0 then (width - 2.0 * WALL_SIZE) / cols as real else 0.0
  }

  /** The brick of row i, column j: top-left at (15 + j * bw, 15 + 15 i), bw by 15. */
  function BrickAt(i: int, j: int, bw: real, s: Strategy): Obj {
    var topLeft := Vec(WALL_SIZE + j as real * bw, WALL_SIZE + i as real * BRICK_HEIGHT);
    Obj(BrickObj(s), Vec(topLeft.x + bw / 2.0, topLeft.y + BRICK_HEIGHT / 2.0))
  }

  /** A loop bound as the source's for loops read it: negative counts run no iteration. */
  function NatOf(n: int): nat {
    if n > 0 then n else 0
  }

  /** A world and the index of the factory's next draw. */
  datatype Building = Building(w: World, pos: nat)

  /**
   * The first n bricks of row i added in order, each with the strategy the
   * factory draws next: n factory bricks laid on b's world.
   */
  function PlaceRow(b: Building, rand: Rand, i: int, n: nat, bw: real): (r: Building)
    requires InRange(rand) && Fresh(b.w)
    ensures BricksLaid(b.w, r.w, n)
  {
    if n == 0 then b
    else
      var before := PlaceRow(b, rand, i, n - 1, bw);
      var d := Create(0, rand, before.pos);
      var o := BrickAt(i, n - 1, bw, d.strategy);
      CreateGenerated(0, rand, before.pos);
      SpawnBrick(before.w, o);
      BricksLaidTrans(b.w, before.w, Spawn(before.w, o), n - 1, 1);
      Building(Spawn(before.w, o), d.next)
  }

  /** One more brick in a row: the factory's next draw, laid on what the row holds so far. */
  lemma PlaceRowStep(b: Building, rand: Rand, i: int, j: nat, bw: real)
    requires InRange(rand) && Fresh(b.w)
    ensures var before := PlaceRow(b, rand, i, j, bw);
      var d := Create(0, rand, before.pos);
      PlaceRow(b, rand, i, j + 1, bw) == Building(Spawn(before.w, BrickAt(i, j, bw, d.strategy)), d.next)
  {
  }

  /** The first m rows of `cols` bricks added in order: m * cols factory bricks laid on b's world. */
  function PlaceRows(b: Building, rand: Rand, m: nat, cols: nat, bw: real): (r: Building)
    requires InRange(rand) && Fresh(b.w)
    ensures BricksLaid(b.w, r.w, m * cols)
  {
    if m == 0 then b
    else
      var before := PlaceRows(b, rand, m - 1, cols, bw);
      RowsLaidStep(b.w, before.w, PlaceRow(before, rand, m - 1, cols, bw).w, m, cols);
      PlaceRow(before, rand, m - 1, cols, bw)
  }

  /** Adding a brick to a world with fresh identities: one more live brick, under the next identity. */
  lemma SpawnBrick(w: World, o: Obj)
    requires Fresh(w) && o.kind.BrickObj?
    ensures var r := Spawn(w, o);
      && Fresh(r) && Grows(w, r)
      && Bricks(r.live, r.objs) == Bricks(w.live, w.objs) + {w.next}
      && |Bricks(r.live, r.objs)| == |Bricks(w.live, w.objs)| + 1
  {
    var r := Spawn(w, o);
    assert forall i :: i in w.objs ==> r.objs[i] == w.objs[i];
    assert Bricks(r.live, r.objs) == Bricks(w.live, w.objs) + {w.next};
    assert w.next !in Bricks(w.live, w.objs);
  }


  /** Grows is transitive. */
  lemma GrowsTrans(a: World, b: World, c: World)
    requires Grows(a, b) && Grows(b, c)
    ensures Grows(a, c)
  {
  }

  /** Only the collection changed between w and r: turbo, the primary ball's velocity and the extra paddle are as they were. */
  predicate SameSession(w: World, r: World) {
    r.turbo == w.turbo && r.ballVel == w.ballVel && r.extra == w.extra
  }

  /** Every object created between w and r is a brick whose strategy the factory can produce from the top. */
  predicate NewAreFactoryBricks(w: World, r: World) {
    forall k :: k in r.objs && k !in w.objs ==> r.objs[k].kind.BrickObj? && Generated(0, r.objs[k].kind.strategy)
  }

  /**
   * r is w with k factory bricks laid on it: fresh identities, only
   * additions, k more identities and k more live bricks, every new object a
   * brick whose strategy the factory can produce from the top, and the rest
   * of the session unchanged.
   */
  predicate BricksLaid(w: World, r: World, k: nat) {
    && Fresh(r) && Grows(w, r) && SameSession(w, r)
    && r.next == w.next + k
    && |Bricks(r.live, r.objs)| == |Bricks(w.live, w.objs)| + k
    && NewAreFactoryBricks(w, r)
    && w.live <= r.live
    && (w.live <= w.objs.Keys ==> r.live <= r.objs.Keys)
  }

  /** Laying k1 bricks and then k2 more is laying k1 + k2. */
  lemma BricksLaidTrans(a: World, b: World, c: World, k1: nat, k2: nat)
    requires BricksLaid(a, b, k1) && BricksLaid(b, c, k2)
    ensures BricksLaid(a, c, k1 + k2)
  {
    GrowsTrans(a, b, c);
  }

  /** m - 1 rows of `cols` bricks and then one more row are m rows. */
  lemma RowsLaidStep(a: World, b: World, c: World, m: nat, cols: nat)
    requires m > 0 && BricksLaid(a, b, (m - 1) * cols) && BricksLaid(b, c, cols)
    ensures BricksLaid(a, c, m * cols)
  {
    assert (m - 1) * cols + cols == m * cols;
    BricksLaidTrans(a, b, c, (m - 1) * cols, cols);
  }

  /** No live object is a brick or an extra paddle. */
  predicate NoBricksOrExtras(w: World)
    requires w.live <= w.objs.Keys
  {
    forall k :: k in w.live ==> !w.objs[k].kind.BrickObj? && w.objs[k].kind != ExtraPaddleObj
  }

  /**
   * Laying factory bricks onto a session without bricks or extra paddles
   * keeps its bookkeeping, and every live brick afterwards carries a
   * strategy the factory can produce from the top.
   */
  lemma FactoryBricksOnto(w: World, r: World, k: nat)
    requires Inv(w) && w.extra == None && NoBricksOrExtras(w) && BricksLaid(w, r, k)
    ensures Inv(r)
    ensures forall k :: k in r.live && r.objs[k].kind.BrickObj? ==> Generated(0, r.objs[k].kind.strategy)
  {
  }

  /** The session before the brick wall: three walls, the ball (identity 3) at the window's centre, and the paddle. */
  function Frame(width: real, height: real, vel: Vec): World {
    World(map[0 := Obj(WallObj, Vec(WALL_SIZE / 2.0, height / 2.0)),
              1 := Obj(WallObj, Vec(width - WALL_SIZE / 2.0, height / 2.0)),
              2 := Obj(WallObj, Vec(width / 2.0, WALL_SIZE / 2.0)),
              3 := Obj(BallObj, Vec(width / 2.0, height / 2.0)),
              4 := Obj(PaddleObj, Vec(width / 2.0, height * 0.9))],
          {0, 1, 2, 3, 4}, 5, false, 3, vel, None, width, height)
  }

  /** The frame keeps the session's bookkeeping, holds no brick, and has its ball live at the window's centre. */
  lemma FrameFacts(width: real, height: real, vel: Vec)
    ensures var f := Frame(width, height, vel);
      && Inv(f) && NoBricksOrExtras(f) && Bricks(f.live, f.objs) == {}
      && f.ball in f.live && f.objs[f.ball].center == WindowCenter(f)
  {
    var f := Frame(width, height, vel);
    assert forall k :: k in f.live ==> !f.objs[k].kind.BrickObj?;
  }

  /**
   * The level initializeGame builds: the brick wall laid on a frame
   * without bricks. It keeps the session's bookkeeping, turbo, the ball's
   * speed and the ball at the window's centre, and it holds exactly m * n
   * live bricks, each carrying a strategy the factory can produce from the
   * top.
   */
  lemma InitialLevel(f: World, w: World, rand: Rand, m: nat, n: nat, bw: real)
    requires InRange(rand) && Inv(f) && TurboOk(f) && f.extra == None && NoBricksOrExtras(f)
    requires Bricks(f.live, f.objs) == {} && f.ball in f.live && f.objs[f.ball].center == WindowCenter(f)
    requires w == PlaceRows(Building(f, 0), rand, m, n, bw).w
    ensures
      && Inv(w) && TurboOk(w) && w.turbo == f.turbo && w.extra == None && w.ballVel == f.ballVel
      && |Bricks(w.live, w.objs)| == m * n
      && (forall k :: k in w.live && w.objs[k].kind.BrickObj? ==> Generated(0, w.objs[k].kind.strategy))
      && w.ball in w.live && w.objs[w.ball].center == WindowCenter(w)
  {
    FactoryBricksOnto(f, w, m * n);
  }

  class BrickerGame {
    var objs: map<Id, Obj>
    var live: set<Id>
    var nextId: Id
    var isTurbo: bool
    var ball: Ball
    var extraPaddle: ExtraPaddle?
    var healthUI: HealthUI
    const width: real
    const height: real
    const rows: int
    const cols: int

    /** The session as the strategies see it. */
    function View(): World
      reads this, ball
    {
      World(objs, live, nextId, isTurbo, ball.id, ball.velocity,
            if extraPaddle == null then None else Some(extraPaddle.id), width, height)
    }

    /**
     * The session's invariants: the collection's bookkeeping (at most one
     * live extra paddle among them), the primary ball boosted exactly when
     * turbo is on, its collision count at 0 whenever turbo is off, and a
     * well-formed health display whose pending caught heart is a falling
     * heart.
     */
    ghost predicate Valid()
      reads this, ball, healthUI, healthUI.health
    {
      && Inv(View())
      && TurboOk(View())
      && (!isTurbo ==> ball.collisionCounter == 0)
      && ball.tag == BallTag
      && healthUI.Valid()
      && healthUI.windowHeight == height
      && (healthUI.collisionHeartDelete.Some? ==>
            var h := healthUI.collisionHeartDelete.value;
            h in objs && objs[h].kind.FallingHeartObj?)
    }

    /**
     * initializeGame: a new session with no extra paddle and turbo off; the
     * three walls, the ball at the window's centre moving diagonally in the
     * quadrant the two coins pick, the paddle, a wall of rows by cols bricks
     * whose strategies the factory draws from `rand`, and three hearts. A
     * caught heart still owed from an earlier session is passed in.
     */
    constructor (width: real, height: real, rows: int, cols: int, rand: Rand,
                 flipX: bool, flipY: bool, needToAddHeart: bool)
      requires InRange(rand)
      ensures Valid()
      ensures this.width == width && this.height == height && this.rows == rows && this.cols == cols
      ensures !isTurbo && extraPaddle == null
      ensures ball.velocity == InitialVelocity(flipX, flipY) && ball.collisionCounter == 0
      ensures ball.id in live && objs[ball.id].center == Vec(width / 2.0, height / 2.0)
      ensures |Bricks(live, objs)| == NatOf(rows) * NatOf(cols)
      ensures forall k :: k in live && objs[k].kind.BrickObj? ==> Generated(0, objs[k].kind.strategy)
      ensures healthUI.curHealth == STARTING_HEARTS && healthUI.needToAddHeart == needToAddHeart
      ensures healthUI.shown == STARTING_HEARTS && healthUI.color == Default
      ensures healthUI.collisionHeartDelete == None
    {
      this.width := width;
      this.height := height;
      this.rows := rows;
      this.cols := cols;
      isTurbo := false;
      extraPaddle := null;
      healthUI := new HealthUI(height, needToAddHeart, None);
      // createWalls (left, right, top), createBall, createPaddle
      ball := new Ball(3, BallTag, InitialVelocity(flipX, flipY));
      objs := Frame(width, height, InitialVelocity(flipX, flipY)).objs;
      live := {0, 1, 2, 3, 4};
      nextId := 5;
      new;
      LayInitialWall(rand, flipX, flipY);
      healthUI.StartHealth();
    }

    /** createBrickWall as initializeGame calls it, on the frame of a new session: the level InitialLevel describes. */
    method LayInitialWall(rand: Rand, flipX: bool, flipY: bool)
      requires InRange(rand) && View() == Frame(width, height, InitialVelocity(flipX, flipY))
      modifies this
      ensures Holds(old(ball), old(extraPaddle), old(healthUI))
      ensures Inv(View()) && TurboOk(View()) && !isTurbo && extraPaddle == null
      ensures ball.id in live && objs[ball.id].center == WindowCenter(View())
      ensures |Bricks(live, objs)| == NatOf(rows) * NatOf(cols)
      ensures forall k :: k in live && objs[k].kind.BrickObj? ==> Generated(0, objs[k].kind.strategy)
    {
      FrameFacts(width, height, InitialVelocity(flipX, flipY));
      InitialVelocitySpeed(flipX, flipY);
      ghost var frame := View();
      CreateBrickWall(rand);
      InitialLevel(frame, View(), rand, NatOf(rows), NatOf(cols), BrickWidth(width, cols));
    }

    /** createBrickWall: row by row, column by column, a brick whose strategy is the factory's next draw. */
    method CreateBrickWall(rand: Rand)
      requires InRange(rand) && Fresh(View())
      modifies this
      ensures View() == PlaceRows(Building(old(View()), 0), rand, NatOf(rows), NatOf(cols), BrickWidth(width, cols)).w
      ensures isTurbo == old(isTurbo)
      ensures Holds(old(ball), old(extraPaddle), old(healthUI))
    {
      var bw := BrickWidth(width, cols);
      var m := NatOf(rows);
      var n := NatOf(cols);
      ghost var start := Building(View(), 0);
      var pos: nat := 0;
      var i := 0;
      while i < m
        invariant 0 <= i <= m
        invariant Building(View(), pos) == PlaceRows(start, rand, i, n, bw)
        invariant isTurbo == old(isTurbo)
        invariant Holds(old(ball), old(extraPaddle), old(healthUI))
      {
        pos := LayRow(rand, i, n, bw, pos);
        i := i + 1;
      }
    }

    /** The inner loop of createBrickWall: row i, n bricks left to right, each with the factory's next draw from index pos0 on. */
    method LayRow(rand: Rand, i: int, n: nat, bw: real, pos0: nat) returns (pos: nat)
      requires InRange(rand) && Fresh(View())
      modifies this
      ensures Building(View(), pos) == PlaceRow(Building(old(View()), pos0), rand, i, n, bw)
      ensures isTurbo == old(isTurbo)
      ensures Holds(old(ball), old(extraPaddle), old(healthUI))
    {
      ghost var start := Building(View(), pos0);
      pos := pos0;
      var j := 0;
      while j < n
        invariant 0 <= j <= n
        invariant Building(View(), pos) == PlaceRow(start, rand, i, j, bw)
        invariant isTurbo == old(isTurbo)
        invariant Holds(old(ball), old(extraPaddle), old(healthUI))
      {
        PlaceRowStep(start, rand, i, j, bw);
        var d := Create(0, rand, pos);
        AddBrick(BrickAt(i, j, bw, d.strategy));
        pos := d.next;
        j := j + 1;
      }
    }

    /** The references the session holds are the given ones. */
    predicate Holds(b: Ball, e: ExtraPaddle?, h: HealthUI)
      reads this
    {
      ball == b && extraPaddle == e && healthUI == h
    }

    /** The caught heart waiting to leave the collection, as a set of at most one identity. */
    function PendingHeart(): set<Id>
      reads this, healthUI
    {
      if healthUI.collisionHeartDelete.Some? then {healthUI.collisionHeartDelete.value} else {}
    }

    /** The extra paddle when it has counted EXTRA_PADDLE_LIVES hits, as a set of at most one identity. */
    function ExpiringPaddle(): set<Id>
      reads this, extraPaddle
    {
      if extraPaddle != null && extraPaddle.hits == EXTRA_PADDLE_LIVES then {extraPaddle.id} else {}
    }

    /** removeObject: takes the object out of the collection, reporting whether it was there. */
    method RemoveObject(id: Id) returns (removed: bool)
      modifies this
      ensures View() == Remove(old(View()), id)
      ensures removed == (id in old(live))
      ensures Holds(old(ball), old(extraPaddle), old(healthUI))
    {
      removed := id in live;
      live := live - {id};
    }

    /** Creating a game object: it gets the next identity but is not in the collection yet. */
    method NewObject(o: Obj) returns (id: Id)
      modifies this
      ensures id == old(nextId) && objs == old(objs)[id := o] && nextId == old(nextId) + 1
      ensures live == old(live) && isTurbo == old(isTurbo)
      ensures Holds(old(ball), old(extraPaddle), old(healthUI))
    {
      id := nextId;
      objs := objs[id := o];
      nextId := nextId + 1;
    }

    /** addObject: puts a created object into the collection. */
    method AddObject(id: Id)
      modifies this
      ensures live == old(live) + {id}
      ensures objs == old(objs) && nextId == old(nextId) && isTurbo == old(isTurbo)
      ensures Holds(old(ball), old(extraPaddle), old(healthUI))
    {
      live := live + {id};
    }

    /** hasExtraPaddle: true when there is NO extra paddle. */
    method HasExtraPaddle() returns (none: bool)
      ensures none <==> extraPaddle == null
    {
      none := extraPaddle == null;
    }

    /** createExtraPaddle: a new extra paddle at the window's centre becomes the current one. */
    method CreateExtraPaddle() returns (e: ExtraPaddle)
      modifies this
      ensures fresh(e) && e.id == old(nextId) && e.hits == 0
      ensures objs == old(objs)[e.id := Obj(ExtraPaddleObj, WindowCenter(old(View())))]
      ensures nextId == old(nextId) + 1 && live == old(live) && isTurbo == old(isTurbo)
      ensures Holds(old(ball), e, old(healthUI))
    {
      var id := NewObject(Obj(ExtraPaddleObj, Vec(width / 2.0, height / 2.0)));
      e := new ExtraPaddle(id);
      extraPaddle := e;
    }

    /** setTurbo: the primary ball speeds up by TURBO_FACTOR and turbo is on. */
    method SetTurbo()
      modifies this, ball
      ensures ball.velocity == Scale(old(ball.velocity), TURBO_FACTOR) && isTurbo
      ensures ball.collisionCounter == old(ball.collisionCounter)
      ensures objs == old(objs) && live == old(live) && nextId == old(nextId)
      ensures Holds(old(ball), old(extraPaddle), old(healthUI))
    {
      ball.velocity := Scale(ball.velocity, TURBO_FACTOR);
      isTurbo := true;
    }

    /** removeTurbo: the primary ball slows down by TURBO_FACTOR, its count restarts, and turbo is off. */
    method RemoveTurbo()
      modifies this, ball
      ensures ball.velocity == Scale(old(ball.velocity), 1.0 / TURBO_FACTOR) && !isTurbo
      ensures ball.collisionCounter == 0
      ensures objs == old(objs) && live == old(live) && nextId == old(nextId)
      ensures Holds(old(ball), old(extraPaddle), old(healthUI))
    {
      ball.velocity := Scale(ball.velocity, 1.0 / TURBO_FACTOR);
      ball.SetCollisionCounter(0);
      isTurbo := false;
    }

    /**
     * Turbo's round trip on the session: setTurbo and then removeTurbo give
     * the primary ball back its old velocity, with its count restarted and
     * turbo off; the collection and the references stay as they were.
     */
    method TurboRoundTrip()
      modifies this, ball
      ensures ball == old(ball) && ball.velocity == old(ball.velocity)
      ensures ball.collisionCounter == 0 && !isTurbo
      ensures objs == old(objs) && live == old(live) && nextId == old(nextId)
      ensures Holds(old(ball), old(extraPaddle), old(healthUI))
    {
      ghost var v := ball.velocity;
      SetTurbo();
      RemoveTurbo();
      ScaleInverse(v, TURBO_FACTOR);
    }

    /** addCollisionHeart: a heart falling at fallSpeed, centred at `center`, joins the collection. */
    method AddCollisionHeart(center: Vec, fallSpeed: int)
      modifies this
      ensures View() == Spawn(old(View()), Obj(FallingHeartObj(fallSpeed), center))
      ensures Holds(old(ball), old(extraPaddle), old(healthUI))
    {
      var id := NewObject(Obj(FallingHeartObj(fallSpeed), center));
      AddObject(id);
    }

    /** new Brick followed by addObject: the brick joins the collection. */
    method AddBrick(o: Obj)
      modifies this
      ensures View() == Spawn(old(View()), o)
      ensures Holds(old(ball), old(extraPaddle), old(healthUI))
    {
      var id := NewObject(o);
      AddObject(id);
    }

    /** createPuck followed by setCenter and addObject: a puck at `center` joins the collection. */
    method AddPuck(center: Vec)
      modifies this
      ensures View() == Spawn(old(View()), Obj(PuckObj, center))
      ensures Holds(old(ball), old(extraPaddle), old(healthUI))
    {
      var id := NewObject(Obj(PuckObj, center));
      AddObject(id);
    }

    /**
     * The strategy s handling a collision of the brick `subject`, whose
     * centre is `at`, through the session's own operations: removeObject,
     * createPuck and addObject, hasExtraPaddle and createExtraPaddle,
     * setTurbo, addCollisionHeart. Only the primary ball's velocity and the
     * extra paddle reference change besides the collection and the flag.
     */
    method Apply(s: Strategy, subject: Id, at: Vec)
      modifies this, ball
      ensures View() == Effect(s, old(View()), subject, at)
      ensures ball == old(ball) && healthUI == old(healthUI)
      ensures ball.collisionCounter == old(ball.collisionCounter)
      ensures extraPaddle != old(extraPaddle) ==> fresh(extraPaddle) && extraPaddle != null && extraPaddle.hits == 0
      decreases s
    {
      match s
      case Double(a, b) =>
        var _ := RemoveObject(subject);
        Apply(a, subject, at);
        Apply(b, subject, at);
      case Basic =>
        var _ := RemoveObject(subject);
      case Puck =>
        var _ := RemoveObject(subject);
        ghost var base := View();
        for k := 0 to 2
          invariant View() == if k == 0 then base else if k == 1 then Spawn(base, Obj(PuckObj, at))
                              else Spawn(Spawn(base, Obj(PuckObj, at)), Obj(PuckObj, at))
          invariant Holds(old(ball), old(extraPaddle), old(healthUI))
          invariant ball.collisionCounter == old(ball.collisionCounter)
        {
          AddPuck(at);
        }
      case Paddle =>
        var _ := RemoveObject(subject);
        var none := HasExtraPaddle();
        if none {
          var e := CreateExtraPaddle();
          AddObject(e.id);
        }
      case Turbo =>
        var _ := RemoveObject(subject);
        if !isTurbo {
          SetTurbo();
        }
      case Heart =>
        var removed := RemoveObject(subject);
        if removed {
          AddCollisionHeart(Vec(at.x, at.y + SAFE_SPACE), FALL_SPEED);
        }
    }

    /** Brick.onCollisionEnter: the brick's own strategy handles the collision; the session stays well formed. */
    method BrickCollision(subject: Id)
      requires Valid() && subject in objs && objs[subject].kind.BrickObj?
      modifies this, ball
      ensures Valid()
      ensures View() == Effect(old(objs[subject].kind.strategy), old(View()), subject, old(objs[subject].center))
      ensures ball == old(ball) && healthUI == old(healthUI)
      ensures ball.collisionCounter == old(ball.collisionCounter)
      ensures extraPaddle != old(extraPaddle) ==> fresh(extraPaddle) && extraPaddle != null && extraPaddle.hits == 0
    {
      var brick := objs[subject];
      ghost var w := View();
      Apply(brick.kind.strategy, subject, brick.center);
      EffectInv(brick.kind.strategy, w, subject, brick.center);
      EffectTurboOk(brick.kind.strategy, w, subject, brick.center);
      EffectGrows(brick.kind.strategy, w, subject, brick.center);
    }

    /** Ball.onCollisionEnter for the primary ball: it bounces off a unit normal at unchanged speed, and counts the hit while turbo is on. */
    method BallCollision(normal: Vec)
      requires Valid() && Norm2(normal) == 1.0
      modifies ball
      ensures Valid()
      ensures ball.velocity == Flip(old(ball.velocity), normal)
      ensures ball.collisionCounter == old(ball.collisionCounter) + (if isTurbo then 1 else 0)
    {
      FlipKeepsSpeed(ball.velocity, normal);
      ball.OnCollisionEnter(normal, isTurbo);
    }

    /** Heart.onCollisionEnter, after its shouldCollideWith filter: only the user's paddle catches a falling heart. */
    method HeartCollision(heart: Id, other: Tag)
      requires Valid() && heart in objs && objs[heart].kind.FallingHeartObj?
      modifies healthUI
      ensures Valid()
      ensures other == PaddleTag ==> healthUI.needToAddHeart && healthUI.collisionHeartDelete == Some(heart)
      ensures other != PaddleTag ==>
        healthUI.needToAddHeart == old(healthUI.needToAddHeart) && healthUI.collisionHeartDelete == old(healthUI.collisionHeartDelete)
      ensures healthUI.curHealth == old(healthUI.curHealth)
      ensures healthUI.shown == old(healthUI.shown) && healthUI.color == old(healthUI.color) && healthUI.uiLayer == old(healthUI.uiLayer)
    {
      if ShouldCollideWith(other) {
        healthUI.RecordCaughtHeart(heart);
      }
    }

    /** isLose: no lives are left. */
    method IsLose() returns (lost: bool)
      ensures lost <==> healthUI.curHealth == 0
    {
      lost := healthUI.curHealth == 0;
    }

    /** isWin: the W key is held, or no object in the collection is tagged "brick". */
    method IsWin(wKey: bool) returns (won: bool)
      requires live <= objs.Keys
      ensures won <==> wKey || Bricks(live, objs) == {}
    {
      if wKey {
        return true;
      }
      var brickNum := 0;
      var rest := live;
      while rest != {}
        invariant rest <= live
        invariant brickNum == |Bricks(live - rest, objs)|
        decreases rest
      {
        var o :| o in rest;
        CountStep(live - rest, o, objs);
        assert live - (rest - {o}) == (live - rest) + {o};
        if TagOf(objs[o].kind) == BrickTag {
          brickNum := brickNum + 1;
        }
        rest := rest - {o};
      }
      assert live - rest == live;
      won := brickNum == 0;
    }

    /** removeAllOutOfBounds: every object of the collection whose centre is outside the window leaves it. */
    method RemoveAllOutOfBounds()
      requires live <= objs.Keys
      modifies this
      ensures objs == old(objs) && nextId == old(nextId) && isTurbo == old(isTurbo)
      ensures live == InWindow(old(live), objs, width, height)
      ensures Holds(old(ball), old(extraPaddle), old(healthUI))
    {
      var rest := live;
      while rest != {}
        invariant rest <= old(live) && old(live) <= objs.Keys
        invariant live == InWindow(old(live) - rest, objs, width, height) + rest
        invariant objs == old(objs) && nextId == old(nextId) && isTurbo == old(isTurbo)
        invariant Holds(old(ball), old(extraPaddle), old(healthUI))
        decreases rest
      {
        var o :| o in rest;
        if OutOfBounds(objs[o].center, width, height) {
          var _ := RemoveObject(o);
        }
        rest := rest - {o};
        assert old(live) - rest == (old(live) - (rest + {o})) + {o};
      }
      assert old(live) - rest == old(live);
    }

    /**
     * The engine's movement step for one object: it gets a new centre and
     * keeps its kind, so the session stays well formed.
     */
    method Move(id: Id, c: Vec)
      requires Valid() && id in objs
      modifies this
      ensures Valid()
      ensures objs == old(objs)[id := Obj(old(objs[id].kind), c)]
      ensures live == old(live) && nextId == old(nextId) && isTurbo == old(isTurbo)
      ensures Holds(old(ball), old(extraPaddle), old(healthUI))
    {
      objs := objs[id := Obj(objs[id].kind, c)];
    }

    /** Whether the primary ball's centre is below the window's bottom edge. */
    predicate Fell()
      reads this, ball
    {
      ball.id in objs && objs[ball.id].center.y > height
    }

    /** createBall: a new primary ball at the window's centre, moving diagonally in the quadrant the two coins pick, joins the collection. */
    method CreateBall(flipX: bool, flipY: bool)
      modifies this
      ensures fresh(ball) && ball.id == old(nextId) && ball.tag == BallTag
      ensures ball.velocity == InitialVelocity(flipX, flipY) && ball.collisionCounter == 0
      ensures objs == old(objs)[ball.id := Obj(BallObj, Vec(width / 2.0, height / 2.0))]
      ensures live == old(live) + {ball.id} && nextId == old(nextId) + 1 && isTurbo == old(isTurbo)
      ensures extraPaddle == old(extraPaddle) && healthUI == old(healthUI)
    {
      var id := NewObject(Obj(BallObj, Vec(width / 2.0, height / 2.0)));
      ball := new Ball(id, BallTag, InitialVelocity(flipX, flipY));
      AddObject(id);
    }

    /**
     * ballOutBounds: when the ball has fallen below the window, a life is
     * lost, the loss is reported when none is left, and a new ball replaces
     * it, boosted when turbo is on. Otherwise nothing happens. Opening the
     * dialog and resetting or closing the window are the caller's.
     */
    method BallOutBounds(flipX: bool, flipY: bool) returns (lost: bool)
      requires Valid()
      modifies this, healthUI
      ensures Valid()
      ensures lost <==> old(Fell()) && healthUI.curHealth == 0
      ensures old(Fell()) ==>
        && fresh(ball) && ball.id == old(nextId)
        && objs == old(objs)[ball.id := Obj(BallObj, Vec(width / 2.0, height / 2.0))]
        && live == old(live) + {ball.id}
        && nextId == old(nextId) + 1
        && ball.velocity == NewBallVelocity(flipX, flipY, isTurbo) && ball.collisionCounter == 0
        && healthUI.curHealth == LoseLife(old(healthUI.curHealth))
      ensures !old(Fell()) ==>
        View() == old(View()) && ball == old(ball) && healthUI.curHealth == old(healthUI.curHealth)
      ensures isTurbo == old(isTurbo) && extraPaddle == old(extraPaddle) && healthUI == old(healthUI)
      ensures healthUI.needToAddHeart == old(healthUI.needToAddHeart)
      ensures healthUI.collisionHeartDelete == old(healthUI.collisionHeartDelete)
      ensures healthUI.shown == old(healthUI.shown) && healthUI.color == old(healthUI.color)
    {
      lost := false;
      if Fell() {
        healthUI.RemoveHeart();
        lost := IsLose();
        ReplaceBall(flipX, flipY);
      }
    }

    /** The replacement half of ballOutBounds: createBall, then setTurbo when turbo is on. */
    method ReplaceBall(flipX: bool, flipY: bool)
      requires Valid()
      modifies this
      ensures Valid()
      ensures fresh(ball) && ball.id == old(nextId)
      ensures objs == old(objs)[ball.id := Obj(BallObj, Vec(width / 2.0, height / 2.0))]
      ensures live == old(live) + {ball.id}
      ensures nextId == old(nextId) + 1
      ensures ball.velocity == NewBallVelocity(flipX, flipY, isTurbo) && ball.collisionCounter == 0
      ensures isTurbo == old(isTurbo) && extraPaddle == old(extraPaddle) && healthUI == old(healthUI)
    {
      CreateBall(flipX, flipY);
      NewBallSpeed(flipX, flipY, isTurbo);
      if isTurbo {
        SetTurbo();
      }
    }

    /**
     * The first step of update (healthUI.updateHealth): a caught heart
     * becomes a life when there is room, the counter is refreshed, and the
     * caught heart leaves the collection.
     */
    method SettleHealth()
      requires Valid()
      modifies this, healthUI, healthUI.health
      ensures Valid()
      ensures healthUI.curHealth == SettledHealth(old(healthUI.curHealth), old(healthUI.needToAddHeart))
      ensures !healthUI.needToAddHeart && healthUI.collisionHeartDelete == None
      ensures healthUI.shown == healthUI.curHealth && healthUI.color == ColorFor(healthUI.curHealth, old(healthUI.color))
      ensures live == old(live) - old(PendingHeart())
      ensures Bricks(live, objs) == Bricks(old(live), old(objs))
      ensures objs == old(objs) && nextId == old(nextId) && isTurbo == old(isTurbo)
      ensures Holds(old(ball), old(extraPaddle), old(healthUI))
    {
      var toRemove := healthUI.UpdateHealth();
      if toRemove.Some? {
        var _ := RemoveObject(toRemove.value);
        assert Bricks(live, objs) == Bricks(old(live), objs);
      }
    }

    /** The culling step of update: the primary ball's count is saved, everything outside the window leaves the collection, and the count is restored. */
    method Cull()
      requires Valid()
      modifies this, ball
      ensures Valid()
      ensures objs == old(objs) && live == InWindow(old(live), objs, width, height)
      ensures forall i :: i in live ==> !OutOfBounds(objs[i].center, width, height)
      ensures forall i :: i in old(live) && !OutOfBounds(objs[i].center, width, height) ==> i in live
      ensures nextId == old(nextId) && isTurbo == old(isTurbo) && Holds(old(ball), old(extraPaddle), old(healthUI))
      ensures ball.velocity == old(ball.velocity) && ball.collisionCounter == old(ball.collisionCounter)
    {
      var counter := ball.GetCollisionCounter();
      RemoveAllOutOfBounds();
      ball.SetCollisionCounter(counter);
      forall i | i in old(live) && !OutOfBounds(objs[i].center, width, height)
        ensures i in live
      {
        InWindowMeaning(old(live), objs, width, height, i);
      }
    }

    /** The extra paddle step of update: at its fourth hit the extra paddle leaves the collection and is forgotten. */
    method ExpireExtraPaddle()
      requires Valid()
      modifies this
      ensures Valid()
      ensures old(extraPaddle) != null && old(extraPaddle.hits) == EXTRA_PADDLE_LIVES ==>
        extraPaddle == null && live == old(live) - {old(extraPaddle).id}
      ensures !(old(extraPaddle) != null && old(extraPaddle.hits) == EXTRA_PADDLE_LIVES) ==>
        extraPaddle == old(extraPaddle) && live == old(live)
      ensures extraPaddle != null ==> extraPaddle.hits != EXTRA_PADDLE_LIVES
      ensures live == old(live) - old(ExpiringPaddle())
      ensures objs == old(objs) && nextId == old(nextId) && isTurbo == old(isTurbo)
      ensures ball == old(ball) && healthUI == old(healthUI)
    {
      if extraPaddle != null {
        var hits := extraPaddle.GetHits();
        if hits == EXTRA_PADDLE_LIVES {
          var _ := RemoveObject(extraPaddle.id);
          extraPaddle := null;
        }
      }
    }

    /** The turbo step of update: when the primary ball has counted MAX_TURBO collisions, turbo ends. */
    method ExpireTurbo()
      requires Valid()
      modifies this, ball
      ensures Valid()
      ensures old(ball.collisionCounter) == MAX_TURBO ==>
        !isTurbo && ball.velocity == Scale(old(ball.velocity), 1.0 / TURBO_FACTOR) && ball.collisionCounter == 0
      ensures old(ball.collisionCounter) != MAX_TURBO ==>
        isTurbo == old(isTurbo) && ball.velocity == old(ball.velocity) && ball.collisionCounter == old(ball.collisionCounter)
      ensures ball.collisionCounter != MAX_TURBO
      ensures objs == old(objs) && live == old(live) && nextId == old(nextId)
      ensures Holds(old(ball), old(extraPaddle), old(healthUI))
    {
      var count := ball.GetCollisionCounter();
      if count == MAX_TURBO {
        ScaleNorm2(ball.velocity, 1.0 / TURBO_FACTOR);
        RemoveTurbo();
      }
    }

    /**
     * The first half of update: the health settles, a fallen ball is
     * replaced, and the win condition is read.
     */
    method Referee(wKey: bool, flipX: bool, flipY: bool) returns (out: Outcome)
      requires Valid()
      modifies this, healthUI, healthUI.health
      ensures Valid()
      ensures out.won <==> wKey || Bricks(old(live), old(objs)) == {}
      ensures out.lost <==> old(Fell()) && SettledHealth(old(healthUI.curHealth), old(healthUI.needToAddHeart)) <= 1
      ensures healthUI.curHealth ==
        var settled := SettledHealth(old(healthUI.curHealth), old(healthUI.needToAddHeart));
        if old(Fell()) then LoseLife(settled) else settled
      ensures healthUI.color == ColorFor(SettledHealth(old(healthUI.curHealth), old(healthUI.needToAddHeart)), old(healthUI.color))
      ensures healthUI.shown == SettledHealth(old(healthUI.curHealth), old(healthUI.needToAddHeart))
      ensures !healthUI.needToAddHeart && healthUI.collisionHeartDelete == None
      ensures live == old(live) - old(PendingHeart()) + (if old(Fell()) then {ball.id} else {})
      ensures old(Fell()) ==>
        && fresh(ball) && ball.id == old(nextId) && nextId == old(nextId) + 1
        && objs == old(objs)[ball.id := Obj(BallObj, Vec(width / 2.0, height / 2.0))]
        && ball.velocity == NewBallVelocity(flipX, flipY, isTurbo) && ball.collisionCounter == 0
      ensures !old(Fell()) ==> ball == old(ball) && objs == old(objs) && nextId == old(nextId)
      ensures isTurbo == old(isTurbo) && extraPaddle == old(extraPaddle) && healthUI == old(healthUI)
    {
      SettleHealth();
      out := Judge(wKey, flipX, flipY);
    }

    /** ballOutBounds and then isWin: a fallen ball costs a life and is replaced, and the win condition is read. */
    method Judge(wKey: bool, flipX: bool, flipY: bool) returns (out: Outcome)
      requires Valid()
      modifies this, healthUI
      ensures Valid()
      ensures out.won <==> wKey || Bricks(old(live), old(objs)) == {}
      ensures out.lost <==> old(Fell()) && old(healthUI.curHealth) <= 1
      ensures healthUI.curHealth == if old(Fell()) then LoseLife(old(healthUI.curHealth)) else old(healthUI.curHealth)
      ensures live == old(live) + (if old(Fell()) then {ball.id} else {})
      ensures old(Fell()) ==>
        && fresh(ball) && ball.id == old(nextId) && nextId == old(nextId) + 1
        && objs == old(objs)[ball.id := Obj(BallObj, Vec(width / 2.0, height / 2.0))]
        && ball.velocity == NewBallVelocity(flipX, flipY, isTurbo) && ball.collisionCounter == 0
      ensures !old(Fell()) ==> ball == old(ball) && objs == old(objs) && nextId == old(nextId)
      ensures isTurbo == old(isTurbo) && extraPaddle == old(extraPaddle) && healthUI == old(healthUI)
      ensures healthUI.needToAddHeart == old(healthUI.needToAddHeart)
      ensures healthUI.collisionHeartDelete == old(healthUI.collisionHeartDelete)
      ensures healthUI.shown == old(healthUI.shown) && healthUI.color == old(healthUI.color)
    {
      var lost := BallOutBounds(flipX, flipY);
      if old(Fell()) {
        NewBallNoBrick(old(live), old(objs), ball.id, Obj(BallObj, Vec(width / 2.0, height / 2.0)));
      }
      var won := IsWin(wKey);
      out := Outcome(lost, won);
    }

    /**
     * update: one frame of the session. In order: the health settles, a
     * fallen ball is replaced, the win condition is read, everything outside
     * the window is culled (the primary ball's count kept), the extra paddle
     * goes at its fourth hit, and turbo ends when the primary ball has
     * counted MAX_TURBO collisions. The outcome says whether the lose and
     * the win dialogs open; what the player answers is the caller's.
     *
     * The collection afterwards is the old one without the caught heart,
     * with the replacement ball when the ball fell, culled to the window,
     * and without an extra paddle at its fourth hit.
     */
    method Update(wKey: bool, flipX: bool, flipY: bool) returns (out: Outcome)
      requires Valid()
      modifies this, healthUI, healthUI.health, ball
      ensures Valid()
      ensures healthUI == old(healthUI)
      ensures out.won <==> wKey || Bricks(old(live), old(objs)) == {}
      ensures out.lost <==> old(Fell()) && SettledHealth(old(healthUI.curHealth), old(healthUI.needToAddHeart)) <= 1
      ensures healthUI.curHealth ==
        var settled := SettledHealth(old(healthUI.curHealth), old(healthUI.needToAddHeart));
        if old(Fell()) then LoseLife(settled) else settled
      ensures healthUI.color == ColorFor(SettledHealth(old(healthUI.curHealth), old(healthUI.needToAddHeart)), old(healthUI.color))
      ensures healthUI.shown == SettledHealth(old(healthUI.curHealth), old(healthUI.needToAddHeart))
      ensures !healthUI.needToAddHeart && healthUI.collisionHeartDelete == None
      ensures old(Fell()) ==>
        && fresh(ball) && ball.id == old(nextId) && nextId == old(nextId) + 1
        && objs == old(objs)[ball.id := Obj(BallObj, Vec(width / 2.0, height / 2.0))]
        && isTurbo == old(isTurbo)
        && ball.velocity == NewBallVelocity(flipX, flipY, isTurbo) && ball.collisionCounter == 0
      ensures !old(Fell()) ==> ball == old(ball) && objs == old(objs) && nextId == old(nextId)
      ensures !old(Fell()) && old(ball.collisionCounter) == MAX_TURBO ==>
        !isTurbo && ball.velocity == Scale(old(ball.velocity), 1.0 / TURBO_FACTOR) && ball.collisionCounter == 0
      ensures !old(Fell()) && old(ball.collisionCounter) != MAX_TURBO ==>
        isTurbo == old(isTurbo) && ball.velocity == old(ball.velocity) && ball.collisionCounter == old(ball.collisionCounter)
      ensures extraPaddle == if old(ExpiringPaddle()) == {} then old(extraPaddle) else null
      ensures live == InWindow(old(live) - old(PendingHeart()) + (if old(Fell()) then {ball.id} else {}), objs, width, height)
                      - old(ExpiringPaddle())
      ensures forall i :: i in live ==> !OutOfBounds(objs[i].center, width, height)
      ensures ball.collisionCounter != MAX_TURBO
      ensures extraPaddle != null ==> extraPaddle.hits != EXTRA_PADDLE_LIVES
    {
      out := Referee(wKey, flipX, flipY);
      Tidy();
    }

    /**
     * The second half of update: the cull (the primary ball's count kept),
     * the extra paddle's expiry at its fourth hit, and turbo's expiry at
     * MAX_TURBO collisions.
     */
    method Tidy()
      requires Valid()
      modifies this, ball
      ensures Valid()
      ensures objs == old(objs) && nextId == old(nextId) && ball == old(ball) && healthUI == old(healthUI)
      ensures live == InWindow(old(live), objs, width, height) - old(ExpiringPaddle())
      ensures extraPaddle == if old(ExpiringPaddle()) == {} then old(extraPaddle) else null
      ensures old(ball.collisionCounter) == MAX_TURBO ==>
        !isTurbo && ball.velocity == Scale(old(ball.velocity), 1.0 / TURBO_FACTOR) && ball.collisionCounter == 0
      ensures old(ball.collisionCounter) != MAX_TURBO ==>
        isTurbo == old(isTurbo) && ball.velocity == old(ball.velocity) && ball.collisionCounter == old(ball.collisionCounter)
      ensures ball.collisionCounter != MAX_TURBO
      ensures extraPaddle != null ==> extraPaddle.hits != EXTRA_PADDLE_LIVES
    {
      Cull();
      ExpireExtraPaddle();
      ExpireTurbo();
    }
  }
}
