/**
 * What the six collision strategies do to a session, as pure functions.
 *
 * A World is the part of the session the strategies read and write: every
 * object created so far (its kind and centre), the simulation's live
 * collection, the turbo flag, the primary ball's velocity and the current
 * extra paddle. Effect(s, w, subject, at) is the state after strategy s
 * handles a collision of the brick `subject`, centred at `at`; the
 * counterpart of the collision is not a parameter, because no strategy
 * looks at it.
 */
module Effects {
  import opened Basics
  import opened Strategies

  /** What a game object is; a brick carries the strategy bound when it was built. */
  datatype Kind =
    | WallObj
    | BallObj
    | PuckObj
    | PaddleObj
    | ExtraPaddleObj
    | BrickObj(strategy: Strategy)
    | FallingHeartObj(fallSpeed: int)

  /** The tags the source sets; walls, the extra paddle and hearts keep the default tag. */
  datatype Tag = BallTag | PuckTag | PaddleTag | BrickTag | NoTag

  function TagOf(k: Kind): Tag {
    match k
    case BallObj => BallTag
    case PuckObj => PuckTag
    case PaddleObj => PaddleTag
    case BrickObj(_) => BrickTag
    case _ => NoTag
  }

  datatype Obj = Obj(kind: Kind, center: Vec)

  /** Speed and downward offset of the heart a Heart strategy drops. */
  const FALL_SPEED: int := 100
  const SAFE_SPACE: real := 10.0

  /** Each coordinate of a new ball's velocity is plus or minus BALL_SPEED. */
  const BALL_SPEED: real := 300.0
  /** setTurbo multiplies the ball's velocity by this factor, removeTurbo by its inverse. */
  const TURBO_FACTOR: real := 1.4
  /** Squared speed of a new ball. */
  const BALL_SPEED2: real := 2.0 * BALL_SPEED * BALL_SPEED

  datatype World = World(
    objs: map<Id, Obj>,   // every object created so far
    live: set<Id>,        // the simulation's object collection
    next: Id,             // identity the next created object gets
    turbo: bool,          // isTurbo
    ball: Id,             // the primary ball
    ballVel: Vec,         // the primary ball's velocity
    extra: Option<Id>,    // the current extra paddle; None stands for null
    width: real,
    height: real)

  /** Identities handed out so far are below `next`. */
  predicate Fresh(w: World) {
    forall i :: i in w.objs ==> i < w.next
  }

  /** Bookkeeping every session keeps: fresh identities, one primary ball, and no live extra paddle other than the referenced one. */
  predicate Inv(w: World) {
    && Fresh(w)
    && w.live <= w.objs.Keys
    && w.ball in w.objs && w.objs[w.ball].kind == BallObj
    && (w.extra.Some? ==> w.extra.value in w.objs && w.objs[w.extra.value].kind == ExtraPaddleObj)
    && (forall i :: i in w.live && w.objs[i].kind == ExtraPaddleObj ==> w.extra == Some(i))
  }

  /** Squared speed of a ball that was sped up once when boosted, and not at all otherwise. */
  function Speed2(boosted: bool): real {
    if boosted then TURBO_FACTOR * TURBO_FACTOR * BALL_SPEED2 else BALL_SPEED2
  }

  /** The primary ball is sped up (exactly once) exactly when turbo is on. */
  predicate TurboOk(w: World) {
    Norm2(w.ballVel) == Speed2(w.turbo)
  }

  /** The live extra paddles. */
  function LiveExtraPaddles(w: World): set<Id>
    requires w.live <= w.objs.Keys
  {
    set i | i in w.live && w.objs[i].kind == ExtraPaddleObj
  }

  /**
   * What no strategy undoes: objects are only ever added (existing ones keep
   * kind and centre), only fresh objects join the collection, the ball,
   * window and an active turbo stay.
   */
  predicate Grows(w: World, r: World) {
    && (forall i :: i in w.objs ==> i in r.objs && r.objs[i] == w.objs[i])
    && w.next <= r.next
    && (forall i :: i in r.live && i !in w.live ==> w.next <= i)
    && r.ball == w.ball && r.width == w.width && r.height == w.height
    && (w.turbo ==> r.turbo)
  }

  /** removeObject: takes x out of the collection; the source also reports whether x was there (x in w.live). */
  function Remove(w: World, x: Id): World {
    w.(live := w.live - {x})
  }

  /** Creates an object with the next identity and adds it to the collection. */
  function Spawn(w: World, o: Obj): World {
    w.(objs := w.objs[w.next := o], live := w.live + {w.next}, next := w.next + 1)
  }

  /** Where createExtraPaddle centres the new paddle. */
  function WindowCenter(w: World): Vec {
    Vec(w.width / 2.0, w.height / 2.0)
  }

  /**
   * One of the five single strategies handling a collision of `subject`,
   * whose centre is `at`. All but Heart first remove the subject
   * unconditionally; Heart drops a falling heart only when its own removal
   * found the subject in the collection.
   */
  function Single(s: Strategy, w: World, subject: Id, at: Vec): World
    requires !s.Double?
  {
    var base := Remove(w, subject);
    match s
    case Basic => base
    case Puck => Spawn(Spawn(base, Obj(PuckObj, at)), Obj(PuckObj, at))
    case Paddle =>
      if base.extra == None then
        Spawn(base.(extra := Some(base.next)), Obj(ExtraPaddleObj, WindowCenter(base)))
      else base
    case Turbo =>
      if !base.turbo then base.(turbo := true, ballVel := Scale(base.ballVel, TURBO_FACTOR)) else base
    case Heart =>
      if subject in w.live then
        Spawn(base, Obj(FallingHeartObj(FALL_SPEED), Vec(at.x, at.y + SAFE_SPACE)))
      else base
  }

  /** The state after strategy s handles a collision of `subject`; a Double removes the subject, then runs its children in order. */
  function Effect(s: Strategy, w: World, subject: Id, at: Vec): World
    decreases s
  {
    match s
    case Double(a, b) => Effect(b, Effect(a, Remove(w, subject), subject, at), subject, at)
    case _ => Single(s, w, subject, at)
  }

  /** What every strategy keeps: see Grows; besides, the subject ends up out of the collection and nothing else leaves it. */
  lemma {:induction false} EffectGrows(s: Strategy, w: World, subject: Id, at: Vec)
    requires Fresh(w) && subject in w.objs
    ensures var r := Effect(s, w, subject, at);
      Fresh(r) && Grows(w, r) && w.live - {subject} <= r.live && subject !in r.live
    decreases s
  {
    match s
    case Double(a, b) =>
      var base := Remove(w, subject);
      var first := Effect(a, base, subject, at);
      EffectGrows(a, base, subject, at);
      EffectGrows(b, first, subject, at);
    case _ =>
  }

  /** Every strategy keeps the session's bookkeeping, in particular at most one live extra paddle. */
  lemma {:induction false} EffectInv(s: Strategy, w: World, subject: Id, at: Vec)
    requires Inv(w) && subject in w.objs
    ensures Inv(Effect(s, w, subject, at))
    decreases s
  {
    match s
    case Double(a, b) =>
      var base := Remove(w, subject);
      EffectInv(a, base, subject, at);
      EffectGrows(a, base, subject, at);
      EffectInv(b, Effect(a, base, subject, at), subject, at);
    case _ =>
      EffectGrows(s, w, subject, at);
  }

  /** Every strategy keeps the primary ball boosted exactly when turbo is on. */
  lemma {:induction false} EffectTurboOk(s: Strategy, w: World, subject: Id, at: Vec)
    requires TurboOk(w)
    ensures TurboOk(Effect(s, w, subject, at))
    decreases s
  {
    match s
    case Double(a, b) =>
      var base := Remove(w, subject);
      EffectTurboOk(a, base, subject, at);
      EffectTurboOk(b, Effect(a, base, subject, at), subject, at);
    case Turbo =>
      ScaleNorm2(w.ballVel, TURBO_FACTOR);
    case _ =>
  }

  /** The live extra paddles of a session number at most one, and none when no extra paddle is referenced. */
  lemma AtMostOneExtraPaddle(w: World)
    requires Inv(w)
    ensures |LiveExtraPaddles(w)| <= 1
    ensures w.extra == None ==> LiveExtraPaddles(w) == {}
  {
    if w.extra == None {
      assert LiveExtraPaddles(w) == {};
    } else if w.extra.value in LiveExtraPaddles(w) {
      assert LiveExtraPaddles(w) == {w.extra.value};
    } else {
      assert LiveExtraPaddles(w) == {};
    }
  }

  /** Whatever the strategy, the subject is out of the collection afterwards and any other live object (the counterpart included) is still in it, unmodified. */
  lemma SubjectRemovedOthersKept(s: Strategy, w: World, subject: Id, at: Vec, other: Id)
    requires Inv(w) && subject in w.objs && other != subject && other in w.live
    ensures subject !in Effect(s, w, subject, at).live
    ensures other in Effect(s, w, subject, at).live
    ensures other in Effect(s, w, subject, at).objs && Effect(s, w, subject, at).objs[other] == w.objs[other]
  {
    EffectGrows(s, w, subject, at);
  }

  /** Each strategy adds at most two objects per single effect it contains. */
  lemma {:induction false} SpawnBound(s: Strategy, w: World, subject: Id, at: Vec)
    ensures w.next <= Effect(s, w, subject, at).next <= w.next + 2 * Leaves(s)
    decreases s
  {
    match s
    case Double(a, b) =>
      var base := Remove(w, subject);
      SpawnBound(a, base, subject, at);
      SpawnBound(b, Effect(a, base, subject, at), subject, at);
    case _ =>
  }

  /** A brick built by the factory creates at most six objects when hit. */
  lemma BrickSpawnsAtMostSix(rand: Rand, pos: nat, w: World, subject: Id, at: Vec)
    requires InRange(rand)
    ensures Effect(Create(0, rand, pos).strategy, w, subject, at).next <= w.next + 6
  {
    TopLevelBounds(rand, pos);
    SpawnBound(Create(0, rand, pos).strategy, w, subject, at);
  }

  /** Basic removes the subject and nothing else; an absent subject is a silent no-op; applying it twice is applying it once. */
  lemma BasicEffect(w: World, subject: Id, at: Vec)
    ensures Effect(Basic, w, subject, at) == w.(live := w.live - {subject})
    ensures subject !in w.live ==> Effect(Basic, w, subject, at) == w
    ensures Effect(Basic, Effect(Basic, w, subject, at), subject, at) == Effect(Basic, w, subject, at)
  {
  }

  /** Puck: subject removed, then exactly two new pucks centred on the subject's centre, whether or not the subject was still live. */
  lemma PuckEffect(w: World, subject: Id, at: Vec)
    ensures var r := Effect(Puck, w, subject, at);
      && r.live == w.live - {subject} + {w.next, w.next + 1}
      && r.objs == w.objs[w.next := Obj(PuckObj, at)][w.next + 1 := Obj(PuckObj, at)]
      && r.next == w.next + 2
      && r.turbo == w.turbo && r.ballVel == w.ballVel && r.extra == w.extra
  {
  }

  /** Paddle: after the removal a new extra paddle appears at the window centre only if none is referenced; either way one is referenced afterwards. */
  lemma PaddleEffect(w: World, subject: Id, at: Vec)
    ensures var r := Effect(Paddle, w, subject, at);
      && r.extra.Some?
      && (w.extra.Some? ==> r == Effect(Basic, w, subject, at))
      && (w.extra == None ==>
            && r.extra == Some(w.next)
            && r.live == w.live - {subject} + {w.next}
            && r.objs == w.objs[w.next := Obj(ExtraPaddleObj, WindowCenter(w))]
            && r.turbo == w.turbo && r.ballVel == w.ballVel)
  {
  }

  /** Turbo: boosts the primary ball once and sets the flag when turbo is off; when it is on, only the removal happens; applying it twice is applying it once. */
  lemma TurboEffect(w: World, subject: Id, at: Vec)
    ensures var r := Effect(Turbo, w, subject, at);
      && r.turbo
      && (w.turbo ==> r == Effect(Basic, w, subject, at))
      && (!w.turbo ==> r == Effect(Basic, w, subject, at).(turbo := true, ballVel := Scale(w.ballVel, TURBO_FACTOR)))
      && Effect(Turbo, r, subject, at) == r
  {
  }

  /** Heart: a falling heart (speed 100, 10 below the subject's centre) appears exactly when the removal found the subject; an absent subject changes nothing. */
  lemma HeartEffect(w: World, subject: Id, at: Vec)
    ensures var r := Effect(Heart, w, subject, at);
      && (subject in w.live ==>
            r == Spawn(w.(live := w.live - {subject}), Obj(FallingHeartObj(100), Vec(at.x, at.y + 10.0))))
      && (subject !in w.live ==> r == w)
  {
  }

  /** No new object is a falling heart. */
  predicate NoNewHeart(w: World, r: World) {
    forall i :: i in r.objs && i !in w.objs ==> !r.objs[i].kind.FallingHeartObj?
  }

  /** Once the subject is gone, no strategy (however nested) drops a heart. */
  lemma {:induction false} NoHeartWithoutSubject(s: Strategy, w: World, subject: Id, at: Vec)
    requires Fresh(w) && subject in w.objs && subject !in w.live
    ensures NoNewHeart(w, Effect(s, w, subject, at))
    decreases s
  {
    match s
    case Double(a, b) =>
      assert Remove(w, subject) == w;
      var first := Effect(a, w, subject, at);
      NoHeartWithoutSubject(a, w, subject, at);
      EffectGrows(a, w, subject, at);
      NoHeartWithoutSubject(b, first, subject, at);
      EffectGrows(b, first, subject, at);
    case _ =>
  }

  /**
   * A Double removes the subject before its children run, so a Heart child
   * (anywhere below it) never drops a heart.
   */
  lemma DoubleNeverDropsHeart(a: Strategy, b: Strategy, w: World, subject: Id, at: Vec)
    requires Fresh(w) && subject in w.objs
    ensures NoNewHeart(w, Effect(Double(a, b), w, subject, at))
  {
    var base := Remove(w, subject);
    var first := Effect(a, base, subject, at);
    NoHeartWithoutSubject(a, base, subject, at);
    EffectGrows(a, base, subject, at);
    NoHeartWithoutSubject(b, first, subject, at);
    EffectGrows(b, first, subject, at);
  }

  /**
   * A Double is the removal followed by both children, in order, on the same
   * subject; the children run even though the subject is gone, and a removal
   * before the Double changes nothing.
   */
  lemma DoubleSequence(a: Strategy, b: Strategy, w: World, subject: Id, at: Vec)
    ensures Effect(Double(a, b), w, subject, at)
         == Effect(b, Effect(a, Effect(Basic, w, subject, at), subject, at), subject, at)
    ensures Effect(Double(a, b), Effect(Basic, w, subject, at), subject, at) == Effect(Double(a, b), w, subject, at)
  {
    assert Remove(Remove(w, subject), subject) == Remove(w, subject);
  }

  /** Double(Turbo, Paddle): turbo on, an extra paddle referenced and no other extra paddle live. */
  lemma TurboThenPaddle(w: World, subject: Id, at: Vec)
    requires Inv(w) && subject in w.objs
    ensures var r := Effect(Double(Turbo, Paddle), w, subject, at);
      r.turbo && r.extra.Some? && LiveExtraPaddles(r) <= {r.extra.value}
  {
    var r := Effect(Double(Turbo, Paddle), w, subject, at);
    EffectInv(Double(Turbo, Paddle), w, subject, at);
    AtMostOneExtraPaddle(r);
  }
}
