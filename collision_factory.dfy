/**
 * The collision strategies a brick can carry, and CollisionFactory's
 * depth-bounded random choice among them.
 *
 * The factory's java.util.Random is replaced by an oracle: rand(i, n) is the
 * value returned by the i-th call nextInt(n), counted from 0 over the life of
 * one factory. Generation threads the index of the next call through the
 * recursion, so the order in which children draw is part of the model.
 */
module Strategies {

  /** One value per strategy class; Double holds its two children. */
  datatype Strategy =
    | Basic
    | Puck
    | Paddle
    | Turbo
    | Heart
    | Double(first: Strategy, second: Strategy)

  type Rand = (nat, int) -> int

  /** What nextInt(n) promises: a value in [0, n). */
  ghost predicate InRange(rand: Rand) {
    forall i: nat, n: int :: 0 < n ==> 0 <= rand(i, n) < n
  }

  /** A generated strategy and the index of the next unused draw. */
  datatype Drawn = Drawn(strategy: Strategy, next: int)

  /** How many more levels of Double the factory may still open at a depth. */
  function Level(depth: int): nat {
    if depth == 0 then 2 else if depth == 1 then 1 else 0
  }

  /**
   * createCollisionStrategy(depth): draws one value (from 10, 5 or 4
   * outcomes by depth), then generates the children of a Double, first
   * one and then the other. The `default` arms of the source are the
   * `assert false` branches: in-range draws never reach them.
   */
  function Create(depth: int, rand: Rand, pos: nat): (r: Drawn)
    requires InRange(rand)
    ensures pos < r.next
    decreases Level(depth)
  {
    if depth == 0 then
      var t := rand(pos, 10);
      if 0 <= t <= 4 then Drawn(Basic, pos + 1)
      else if t == 5 then Drawn(Puck, pos + 1)
      else if t == 6 then Drawn(Paddle, pos + 1)
      else if t == 7 then Drawn(Turbo, pos + 1)
      else if t == 8 then Drawn(Heart, pos + 1)
      else if t == 9 then
        var a := Create(1, rand, pos + 1);
        var b := Create(2, rand, a.next);
        Drawn(Double(a.strategy, b.strategy), b.next)
      else assert false; Drawn(Basic, 1)
    else if depth == 1 then
      var t := rand(pos, 5);
      if t == 0 then Drawn(Puck, pos + 1)
      else if t == 1 then Drawn(Paddle, pos + 1)
      else if t == 2 then Drawn(Turbo, pos + 1)
      else if t == 3 then Drawn(Heart, pos + 1)
      else if t == 4 then
        var a := Create(2, rand, pos + 1);
        var b := Create(2, rand, a.next);
        Drawn(Double(a.strategy, b.strategy), b.next)
      else assert false; Drawn(Puck, 1)
    else
      var t := rand(pos, 4);
      if t == 0 then Drawn(Puck, pos + 1)
      else if t == 1 then Drawn(Paddle, pos + 1)
      else if t == 2 then Drawn(Turbo, pos + 1)
      else if t == 3 then Drawn(Heart, pos + 1)
      else assert false; Drawn(Puck, 1)
  }

  /**
   * The shapes the factory is meant to produce at each depth, written
   * independently of the draws: Basic only at the top, a Double at depth 0
   * takes a depth-1 and a depth-2 child, at depth 1 two depth-2 children,
   * and any other depth yields a single non-Basic effect.
   */
  predicate Generated(depth: int, s: Strategy)
    decreases s
  {
    match s
    case Basic => depth == 0
    case Double(a, b) =>
      if depth == 0 then Generated(1, a) && Generated(2, b)
      else if depth == 1 then Generated(2, a) && Generated(2, b)
      else false
    case _ => true
  }

  /** Number of Doubles on the longest path from the root. */
  function Nesting(s: Strategy): nat {
    match s
    case Double(a, b) =>
      1 + (if Nesting(a) < Nesting(b) then Nesting(b) else Nesting(a))
    case _ => 0
  }

  /** Number of single effects in the tree. */
  function Leaves(s: Strategy): nat {
    match s
    case Double(a, b) => Leaves(a) + Leaves(b)
    case _ => 1
  }

  /** No Double in the tree has Basic as a child. */
  predicate NoBasicChild(s: Strategy) {
    match s
    case Double(a, b) => a != Basic && b != Basic && NoBasicChild(a) && NoBasicChild(b)
    case _ => true
  }

  /** Everything the factory produces has the intended shape for its depth. */
  lemma {:induction false} CreateGenerated(depth: int, rand: Rand, pos: nat)
    requires InRange(rand)
    ensures Generated(depth, Create(depth, rand, pos).strategy)
    decreases Level(depth)
  {
    var t := rand(pos, if depth == 0 then 10 else if depth == 1 then 5 else 4);
    if depth == 0 && t == 9 {
      var a := Create(1, rand, pos + 1);
      CreateGenerated(1, rand, pos + 1);
      CreateGenerated(2, rand, a.next);
    } else if depth == 1 && t == 4 {
      var a := Create(2, rand, pos + 1);
      CreateGenerated(2, rand, pos + 1);
      CreateGenerated(2, rand, a.next);
    }
  }

  /**
   * The bounds the generation policy guarantees: Doubles nest at most
   * Level(depth) deep (2 from the top), there are at most Level(depth) + 1
   * leaves (3 from the top), Basic is never the child of a Double, and
   * only depth 0 can yield Basic.
   */
  lemma {:induction false} GeneratedBounds(depth: int, s: Strategy)
    requires Generated(depth, s)
    ensures Nesting(s) <= Level(depth)
    ensures Leaves(s) <= Level(depth) + 1
    ensures NoBasicChild(s)
    ensures depth != 0 ==> s != Basic
    decreases s
  {
    match s
    case Double(a, b) =>
      if depth == 0 {
        GeneratedBounds(1, a);
        GeneratedBounds(2, b);
      } else {
        GeneratedBounds(2, a);
        GeneratedBounds(2, b);
      }
    case _ =>
  }

  /** From the top, the factory's trees are at most two Doubles deep with at most three effects. */
  lemma TopLevelBounds(rand: Rand, pos: nat)
    requires InRange(rand)
    ensures var s := Create(0, rand, pos).strategy;
      Nesting(s) <= 2 && Leaves(s) <= 3 && NoBasicChild(s)
  {
    CreateGenerated(0, rand, pos);
    GeneratedBounds(0, Create(0, rand, pos).strategy);
  }

  /** The depth-0 table: draws 0-4 give Basic, 5-8 the four effects, 9 a Double whose children come from depth 1, then depth 2. */
  lemma Depth0Choice(rand: Rand, pos: nat)
    requires InRange(rand)
    ensures var t, s := rand(pos, 10), Create(0, rand, pos).strategy;
      && (s == Basic <==> t <= 4)
      && (s == Puck <==> t == 5)
      && (s == Paddle <==> t == 6)
      && (s == Turbo <==> t == 7)
      && (s == Heart <==> t == 8)
      && (s.Double? <==> t == 9)
      && (t == 9 ==>
            var a := Create(1, rand, pos + 1);
            s == Double(a.strategy, Create(2, rand, a.next).strategy))
  {
  }

  /** The depth-1 table: never Basic; draw 4 gives a Double of two depth-2 strategies drawn in order. */
  lemma Depth1Choice(rand: Rand, pos: nat)
    requires InRange(rand)
    ensures var t, s := rand(pos, 5), Create(1, rand, pos).strategy;
      && s != Basic
      && (s == Puck <==> t == 0)
      && (s == Paddle <==> t == 1)
      && (s == Turbo <==> t == 2)
      && (s == Heart <==> t == 3)
      && (s.Double? <==> t == 4)
      && (t == 4 ==>
            var a := Create(2, rand, pos + 1);
            s == Double(a.strategy, Create(2, rand, a.next).strategy))
  {
  }

  /** Any other depth: one of the four effects, one draw, never Basic or Double. */
  lemma DeeperChoice(depth: int, rand: Rand, pos: nat)
    requires InRange(rand) && depth != 0 && depth != 1
    ensures var t, r := rand(pos, 4), Create(depth, rand, pos);
      && r.next == pos + 1
      && (r.strategy == Puck <==> t == 0)
      && (r.strategy == Paddle <==> t == 1)
      && (r.strategy == Turbo <==> t == 2)
      && (r.strategy == Heart <==> t == 3)
  {
  }

  /** The draws that make the factory produce `s` at `depth`. */
  function Encode(depth: int, s: Strategy): seq<int>
    requires Generated(depth, s)
    decreases s
  {
    match s
    case Basic => [0]
    case Puck => [if depth == 0 then 5 else 0]
    case Paddle => [if depth == 0 then 6 else 1]
    case Turbo => [if depth == 0 then 7 else 2]
    case Heart => [if depth == 0 then 8 else 3]
    case Double(a, b) =>
      if depth == 0 then [9] + Encode(1, a) + Encode(2, b)
      else [4] + Encode(2, a) + Encode(2, b)
  }

  /** A generator that replays recorded draws (and answers 0 past their end). */
  function Replay(ds: seq<int>): Rand {
    (i: nat, n: int) => if i < |ds| && 0 <= ds[i] < n then ds[i] else 0
  }

  /** A Double is produced when the draw at pos selects it and its two children are produced one after the other. */
  lemma CreateDoubleStep(depth: int, rand: Rand, pos: nat, a: Strategy, b: Strategy, mid: nat, end: nat)
    requires InRange(rand) && (depth == 0 || depth == 1)
    requires rand(pos, if depth == 0 then 10 else 5) == (if depth == 0 then 9 else 4)
    requires Create(if depth == 0 then 1 else 2, rand, pos + 1) == Drawn(a, mid)
    requires Create(2, rand, mid) == Drawn(b, end)
    ensures Create(depth, rand, pos) == Drawn(Double(a, b), end)
  {
  }

  /** From index pos on, rand answers the recorded draws e whenever they are in range. */
  ghost predicate Agrees(rand: Rand, pos: nat, e: seq<int>) {
    forall i: nat, n: int :: pos <= i < pos + |e| && 0 <= e[i - pos] < n ==> rand(i, n) == e[i - pos]
  }

  /** A generator that agrees with draws e also agrees with every stretch e[i..j]. */
  lemma AgreesSlice(rand: Rand, pos: nat, e: seq<int>, i: nat, j: nat)
    requires Agrees(rand, pos, e) && i <= j <= |e|
    ensures Agrees(rand, pos + i, e[i..j])
  {
    forall k: nat, n: int | pos + i <= k < pos + i + |e[i..j]| && 0 <= e[i..j][k - (pos + i)] < n
      ensures rand(k, n) == e[i..j][k - (pos + i)]
    {
      assert e[i..j][k - (pos + i)] == e[k - pos];
    }
  }

  lemma ReplayAgrees(ds: seq<int>)
    ensures InRange(Replay(ds)) && Agrees(Replay(ds), 0, ds)
  {
  }

  /** The first recorded draw is what rand answers at pos. */
  lemma AgreesHead(rand: Rand, pos: nat, e: seq<int>, n: int)
    requires Agrees(rand, pos, e) && 0 < |e| && 0 <= e[0] < n
    ensures rand(pos, n) == e[0]
  {
  }

  /** A single effect takes one draw. */
  lemma CreateLeafStep(depth: int, s: Strategy, rand: Rand, pos: nat)
    requires InRange(rand) && Generated(depth, s) && !s.Double?
    requires rand(pos, if depth == 0 then 10 else if depth == 1 then 5 else 4) == Encode(depth, s)[0]
    ensures Create(depth, rand, pos) == Drawn(s, pos + 1)
  {
  }

  /**
   * Every intended shape is reachable: when the draws from index pos on
   * are Encode(depth, s), the factory produces exactly s and consumes
   * exactly those draws. Together with CreateGenerated, the factory
   * produces precisely the Generated shapes.
   */
  lemma {:induction false} CreateReplay(depth: int, s: Strategy, rand: Rand, pos: nat)
    requires InRange(rand) && Generated(depth, s) && Agrees(rand, pos, Encode(depth, s))
    ensures Create(depth, rand, pos) == Drawn(s, pos + |Encode(depth, s)|)
    decreases s, 1
  {
    if s.Double? {
      CreateReplayDouble(depth, s.first, s.second, rand, pos);
    } else {
      AgreesHead(rand, pos, Encode(depth, s), if depth == 0 then 10 else if depth == 1 then 5 else 4);
      CreateLeafStep(depth, s, rand, pos);
    }
  }

  /** The two stretches after the head of [h] + x + y are x and y. */
  lemma ConcatSlices(h: int, x: seq<int>, y: seq<int>)
    ensures var e := [h] + x + y; e[1..1 + |x|] == x && e[1 + |x|..|e|] == y
  {
    var e := [h] + x + y;
    assert |e| == 1 + |x| + |y|;
    assert forall k :: 0 <= k < |x| ==> e[1..1 + |x|][k] == e[1 + k] == x[k];
    assert forall k :: 0 <= k < |y| ==> e[1 + |x|..|e|][k] == e[1 + |x| + k] == y[k];
  }

  /** The draws of a Double: the selecting value, then the first child's draws, then the second's. */
  lemma AgreesDouble(depth: int, a: Strategy, b: Strategy, rand: Rand, pos: nat)
    requires (depth == 0 || depth == 1) && Generated(depth, Double(a, b))
    requires Agrees(rand, pos, Encode(depth, Double(a, b)))
    ensures var ea := Encode(if depth == 0 then 1 else 2, a);
      && rand(pos, if depth == 0 then 10 else 5) == (if depth == 0 then 9 else 4)
      && Agrees(rand, pos + 1, ea)
      && Agrees(rand, pos + 1 + |ea|, Encode(2, b))
      && |Encode(depth, Double(a, b))| == 1 + |ea| + |Encode(2, b)|
  {
    var e := Encode(depth, Double(a, b));
    var ea, eb := Encode(if depth == 0 then 1 else 2, a), Encode(2, b);
    assert e == [e[0]] + ea + eb;
    ConcatSlices(e[0], ea, eb);
    AgreesSlice(rand, pos, e, 1, 1 + |ea|);
    AgreesSlice(rand, pos, e, 1 + |ea|, |e|);
    AgreesHead(rand, pos, e, if depth == 0 then 10 else 5);
  }

  /** The Double case of CreateReplay: the selecting draw, then each child's draws in turn. */
  lemma {:induction false} CreateReplayDouble(depth: int, a: Strategy, b: Strategy, rand: Rand, pos: nat)
    requires InRange(rand) && Generated(depth, Double(a, b)) && Agrees(rand, pos, Encode(depth, Double(a, b)))
    ensures Create(depth, rand, pos) == Drawn(Double(a, b), pos + |Encode(depth, Double(a, b))|)
    decreases Double(a, b), 0
  {
    var d1 := if depth == 0 then 1 else 2;
    AgreesDouble(depth, a, b, rand, pos);
    var mid := pos + 1 + |Encode(d1, a)|;
    CreateReplay(d1, a, rand, pos + 1);
    CreateReplay(2, b, rand, mid);
    CreateDoubleStep(depth, rand, pos, a, b, mid, mid + |Encode(2, b)|);
  }

  /** The factory can produce every intended shape at every depth. */
  lemma CreateComplete(depth: int, s: Strategy)
    requires Generated(depth, s)
    ensures exists rand: Rand :: InRange(rand) && Create(depth, rand, 0).strategy == s
  {
    var e := Encode(depth, s);
    var rand := Replay(e);
    ReplayAgrees(e);
    CreateReplay(depth, s, rand, 0);
    assert InRange(rand) && Create(depth, rand, 0).strategy == s;
  }
}
