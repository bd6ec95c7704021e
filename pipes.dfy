// The pipe pairs of js/game.js as values: their geometry (generatePipe),
// the shift-and-drop pass of updatePipes, the scoring rule of updateScore
// and the hit tests of checkCollisions.
module Pipes {
  import opened Physics

  const PIPE_WIDTH: real := 52.0
  const MIN_PIPE_HEIGHT: int := 50

  /** A vertical extent: the top edge y and the height. */
  datatype Rect = Rect(y: real, height: real)

  /** A pipe pair: left edge x, width, whether it has been scored, and the
      top and bottom pipes. */
  datatype Pipe = Pipe(x: real, width: real, scored: bool, top: Rect, bottom: Rect)

  /** The top edge of the ground on a canvas of the given height. */
  function GroundTop(canvasHeight: nat): real
  {
    (canvasHeight - GROUND_HEIGHT) as real
  }

  /** The largest bottom-pipe height generatePipe aims for. */
  function MaxPipeHeight(canvasHeight: nat): int
  {
    canvasHeight - GROUND_HEIGHT - PIPE_GAP - MIN_PIPE_HEIGHT
  }

  /** The bottom-pipe height generatePipe draws, given the value r of
      Math.random: floor(r * (max - min + 1)) + min. On a tall enough
      canvas it lies in [min, max]; on a shorter one the range is empty
      and the height lands in (max, min] instead. */
  function PipeHeight(canvasHeight: nat, r: real): (h: int)
    requires 0.0 <= r < 1.0
    ensures MaxPipeHeight(canvasHeight) >= MIN_PIPE_HEIGHT ==>
              MIN_PIPE_HEIGHT <= h <= MaxPipeHeight(canvasHeight)
    ensures MaxPipeHeight(canvasHeight) < MIN_PIPE_HEIGHT ==>
              MaxPipeHeight(canvasHeight) < h <= MIN_PIPE_HEIGHT
  {
    var span := MaxPipeHeight(canvasHeight) - MIN_PIPE_HEIGHT + 1;
    ScaledFloorBounds(r, span);
    (r * span as real).Floor + MIN_PIPE_HEIGHT
  }

  /** Math.random() * span lies in [0, span) for a positive span and in
      [span, 0] otherwise. */
  lemma ScaledBounds(r: real, span: int)
    requires 0.0 <= r < 1.0
    ensures span >= 1 ==> 0.0 <= r * span as real < span as real
    ensures span < 1 ==> span as real <= r * span as real <= 0.0
  {
  }

  /** floor(Math.random() * span) lies in [0, span) for a positive span
      and in [span, 0] otherwise. */
  lemma ScaledFloorBounds(r: real, span: int)
    requires 0.0 <= r < 1.0
    ensures span >= 1 ==> 0 <= (r * span as real).Floor < span
    ensures span < 1 ==> span <= (r * span as real).Floor <= 0
  {
    ScaledBounds(r, span);
    var x := r * span as real;
    assert x.Floor as real <= x < x.Floor as real + 1.0;
  }

  /** The shape every pipe pair has: 52 wide, the top pipe hanging from
      the top of the screen, a PIPE_GAP opening below it, and the bottom
      pipe reaching down to the ground. */
  predicate WellShaped(p: Pipe, canvasHeight: nat)
  {
    p.width == PIPE_WIDTH &&
    p.top.y == 0.0 &&
    p.top.height + PIPE_GAP as real + p.bottom.height == GroundTop(canvasHeight) &&
    p.bottom.y == p.top.height + PIPE_GAP as real
  }

  /** The pipe pair generatePipe builds for a bottom height h. */
  function NewPipe(canvasWidth: nat, canvasHeight: nat, h: int): (p: Pipe)
    ensures WellShaped(p, canvasHeight)
    ensures p.bottom.y + p.bottom.height == GroundTop(canvasHeight)
    ensures p.bottom.height == h as real
    ensures p.x == canvasWidth as real && !p.scored
  {
    Pipe(canvasWidth as real, PIPE_WIDTH, false,
         Rect(0.0, (canvasHeight - GROUND_HEIGHT - PIPE_GAP - h) as real),
         Rect((canvasHeight - GROUND_HEIGHT - h) as real, h as real))
  }

  /** On a tall enough canvas both pipes of a new pair are at least
      MIN_PIPE_HEIGHT tall. */
  lemma NewPipeHeights(canvasWidth: nat, canvasHeight: nat, r: real)
    requires 0.0 <= r < 1.0
    requires MaxPipeHeight(canvasHeight) >= MIN_PIPE_HEIGHT
    ensures var p := NewPipe(canvasWidth, canvasHeight, PipeHeight(canvasHeight, r));
      p.top.height >= MIN_PIPE_HEIGHT as real && p.bottom.height >= MIN_PIPE_HEIGHT as real
  {
  }

  /** On a canvas 200 high the height range is empty and the top pipe of
      the pair drawn with r = 0 has a negative height. */
  lemma ShortCanvasNegativeTop()
    ensures NewPipe(400, 200, PipeHeight(200, 0.0)).top.height < 0.0
  {
  }

  /** Still at least partly on screen: x + width >= 0. */
  predicate OnScreen(p: Pipe)
  {
    p.x + p.width >= 0.0
  }

  /** One tick of leftward motion. */
  function Shift(p: Pipe): Pipe
  {
    p.(x := p.x - PIPE_SPEED)
  }

  function ShiftAll(ps: seq<Pipe>): (r: seq<Pipe>)
    ensures |r| == |ps|
    ensures forall i :: 0 <= i < |ps| ==> r[i] == Shift(ps[i])
  {
    seq(|ps|, i requires 0 <= i < |ps| => Shift(ps[i]))
  }

  /** The pipes still on screen, in their order. */
  function Visible(ps: seq<Pipe>): seq<Pipe>
  {
    if ps == [] then []
    else Visible(ps[..|ps| - 1]) + (if OnScreen(ps[|ps| - 1]) then [ps[|ps| - 1]] else [])
  }

  /** What the movement loop of updatePipes leaves: every pipe shifted by
      PIPE_SPEED, and those that went off screen dropped. */
  function Advance(ps: seq<Pipe>): seq<Pipe>
  {
    Visible(ShiftAll(ps))
  }

  /** Advancing one more pipe of the list: the movement loop handles the
      pipes one at a time, front to back. */
  lemma AdvanceStep(ps: seq<Pipe>, k: nat)
    requires k < |ps|
    ensures Advance(ps[..k + 1]) ==
      Advance(ps[..k]) + (if OnScreen(Shift(ps[k])) then [Shift(ps[k])] else [])
  {
    var moved := ShiftAll(ps[..k + 1]);
    assert moved[..|moved| - 1] == ShiftAll(ps[..k]);
  }

  /** A pipe survives iff it is on screen, and nothing else gets in. */
  lemma {:induction false} VisibleMembers(ps: seq<Pipe>)
    ensures forall p :: p in Visible(ps) <==> p in ps && OnScreen(p)
    ensures |Visible(ps)| <= |ps|
  {
    if ps != [] {
      var init := ps[..|ps| - 1];
      VisibleMembers(init);
      assert ps == init + [ps[|ps| - 1]];
    }
  }

  /** Dropping pipes keeps the survivors in their order. */
  lemma {:induction false} VisibleAppend(s: seq<Pipe>, t: seq<Pipe>)
    ensures Visible(s + t) == Visible(s) + Visible(t)
  {
    if t == [] {
      assert s + t == s;
    } else {
      var t' := t[..|t| - 1];
      VisibleAppend(s, t');
      assert (s + t)[..|s + t| - 1] == s + t';
    }
  }

  /** Left edges strictly increasing along the list: in spawn order, the
      oldest pair is the leftmost. */
  predicate Ascending(ps: seq<Pipe>)
  {
    forall i, j :: 0 <= i < j < |ps| ==> ps[i].x < ps[j].x
  }

  lemma {:induction false} VisibleAscending(ps: seq<Pipe>)
    requires Ascending(ps)
    ensures Ascending(Visible(ps))
  {
    if ps != [] {
      var init := ps[..|ps| - 1];
      var last := ps[|ps| - 1];
      VisibleAscending(init);
      VisibleMembers(init);
      forall q | q in Visible(init) ensures q.x < last.x {
        var i :| 0 <= i < |init| && init[i] == q;
      }
    }
  }

  /** Survivors of a tick: each is a pipe of the list moved left by exactly
      PIPE_SPEED, and a pipe is dropped iff its shifted x + width < 0. */
  lemma AdvanceSurvivors(ps: seq<Pipe>)
    ensures forall q :: q in Advance(ps) ==>
      OnScreen(q) && exists j :: 0 <= j < |ps| && q == Shift(ps[j])
    ensures forall j :: 0 <= j < |ps| ==>
      (Shift(ps[j]) in Advance(ps) <==> Shift(ps[j]).x + ps[j].width >= 0.0)
  {
    VisibleMembers(ShiftAll(ps));
    forall q | q in Advance(ps)
      ensures exists j :: 0 <= j < |ps| && q == Shift(ps[j])
    {
      var j :| 0 <= j < |ps| && ShiftAll(ps)[j] == q;
    }
  }

  /** The pipe list between two ticks: well shaped, in spawn order, on
      screen and already moved left of the spawn point. */
  predicate PipesOk(ps: seq<Pipe>, canvasWidth: nat, canvasHeight: nat)
  {
    Ascending(ps) &&
    forall i :: 0 <= i < |ps| ==>
      WellShaped(ps[i], canvasHeight) && OnScreen(ps[i]) &&
      ps[i].x <= canvasWidth as real - PIPE_SPEED
  }

  /** updatePipes keeps the pipe list in shape, whether or not it spawned
      a pair at the right edge before moving. */
  lemma {:induction false} AdvanceKeepsPipesOk(ps: seq<Pipe>, canvasWidth: nat, canvasHeight: nat, spawned: seq<Pipe>)
    requires PipesOk(ps, canvasWidth, canvasHeight)
    requires |spawned| <= 1
    requires forall p :: p in spawned ==> WellShaped(p, canvasHeight) && p.x == canvasWidth as real
    ensures PipesOk(Advance(ps + spawned), canvasWidth, canvasHeight)
  {
    var all := ps + spawned;
    assert Ascending(all) by {
      forall i, j | 0 <= i < j < |all| ensures all[i].x < all[j].x {
        if j >= |ps| {
          assert i < |ps| && all[i] == ps[i];
          assert all[j] == spawned[j - |ps|] && all[j] in spawned;
          assert all[j].x == canvasWidth as real;
          assert all[i].x <= canvasWidth as real - PIPE_SPEED;
        } else {
          assert all[i] == ps[i] && all[j] == ps[j];
        }
      }
    }
    var moved := ShiftAll(all);
    assert Ascending(moved);
    VisibleAscending(moved);
    AdvanceSurvivors(all);
    var r := Advance(all);
    forall i | 0 <= i < |r|
      ensures WellShaped(r[i], canvasHeight) && OnScreen(r[i])
      ensures r[i].x <= canvasWidth as real - PIPE_SPEED
    {
      assert r[i] in r;
      var j :| 0 <= j < |all| && r[i] == Shift(all[j]);
      if j >= |ps| {
        assert all[j] in spawned;
      }
    }
  }

  /** A pipe the bird has just cleared: not yet scored and its right edge
      left of the bird's left edge. */
  predicate Passed(birdX: real, p: Pipe)
  {
    !p.scored && birdX > p.x + p.width
  }

  /** The pipe list after updateScore: the flag is set on the cleared pipes. */
  function ScoreAll(birdX: real, ps: seq<Pipe>): (r: seq<Pipe>)
    ensures |r| == |ps|
    ensures forall i :: 0 <= i < |ps| ==>
      r[i] == ps[i].(scored := r[i].scored) &&
      (r[i].scored <==> ps[i].scored || birdX > ps[i].x + ps[i].width)
  {
    seq(|ps|, i requires 0 <= i < |ps| => if Passed(birdX, ps[i]) then ps[i].(scored := true) else ps[i])
  }

  /** How many pipes of the list the bird has just cleared. */
  function NewlyPassed(birdX: real, ps: seq<Pipe>): nat
  {
    if ps == [] then 0
    else NewlyPassed(birdX, ps[..|ps| - 1]) + (if Passed(birdX, ps[|ps| - 1]) then 1 else 0)
  }

  /** How many pipes of the list carry the scored flag. */
  function ScoredCount(ps: seq<Pipe>): nat
  {
    if ps == [] then 0
    else ScoredCount(ps[..|ps| - 1]) + (if ps[|ps| - 1].scored then 1 else 0)
  }

  /** Scoring adds one point per flag it sets: the count of newly cleared
      pipes is exactly the number of flags that go from false to true. */
  lemma {:induction false} ScoreCountsFlags(birdX: real, ps: seq<Pipe>)
    ensures ScoredCount(ScoreAll(birdX, ps)) == ScoredCount(ps) + NewlyPassed(birdX, ps)
    ensures NewlyPassed(birdX, ps) <= |ps|
  {
    if ps != [] {
      var init := ps[..|ps| - 1];
      ScoreCountsFlags(birdX, init);
      var r := ScoreAll(birdX, ps);
      assert r[..|r| - 1] == ScoreAll(birdX, init);
    }
  }

  /** A second scoring pass with the bird where it was sets no flag and
      adds no point. */
  lemma {:induction false} ScoreIdempotent(birdX: real, ps: seq<Pipe>)
    ensures ScoreAll(birdX, ScoreAll(birdX, ps)) == ScoreAll(birdX, ps)
    ensures NewlyPassed(birdX, ScoreAll(birdX, ps)) == 0
  {
    if ps != [] {
      var init := ps[..|ps| - 1];
      ScoreIdempotent(birdX, init);
      var r := ScoreAll(birdX, ps);
      assert r[..|r| - 1] == ScoreAll(birdX, init);
    }
  }

  /** Scoring moves no pipe and changes no shape, so the list stays in shape. */
  lemma ScoreKeepsPipesOk(birdX: real, ps: seq<Pipe>, canvasWidth: nat, canvasHeight: nat)
    requires PipesOk(ps, canvasWidth, canvasHeight)
    ensures PipesOk(ScoreAll(birdX, ps), canvasWidth, canvasHeight)
  {
  }

  /** The example of a pipe at x = 10, 52 wide, and a bird at x = 65, just
      past its right edge: the pipe is scored for one point. */
  lemma ScoreJustPast(p: Pipe)
    requires p.x == 10.0 && p.width == PIPE_WIDTH && !p.scored
    ensures ScoreAll(65.0, [p]) == [p.(scored := true)]
    ensures NewlyPassed(65.0, [p]) == 1
  {
    assert [p][..0] == [];
  }

  /** The bird touches or sinks into the ground. */
  predicate GroundHit(b: Bird, groundY: real)
  {
    b.y + b.height >= groundY
  }

  /** The bird's columns overlap the pipe's. */
  predicate InPipeColumn(b: Bird, p: Pipe)
  {
    b.x + b.width > p.x && b.x < p.x + p.width
  }

  /** The pipe test of checkCollisions: within the pipe's columns, the
      bird's top is above the top pipe's lower edge or its bottom is below
      the bottom pipe's upper edge. */
  predicate PipeHit(b: Bird, p: Pipe)
  {
    InPipeColumn(b, p) &&
    (b.y < p.top.y + p.top.height || b.y + b.height > p.bottom.y)
  }

  predicate HitsSomePipe(b: Bird, ps: seq<Pipe>)
  {
    exists i :: 0 <= i < |ps| && PipeHit(b, ps[i])
  }

  /** The condition under which checkCollisions ends the game. */
  predicate Collides(b: Bird, groundY: real, ps: seq<Pipe>)
  {
    GroundHit(b, groundY) || HitsSomePipe(b, ps)
  }

  /** An axis-aligned box on the canvas. */
  datatype Box = Box(left: real, top: real, width: real, height: real)

  /** Two boxes share interior points. */
  predicate Intersect(a: Box, c: Box)
  {
    a.left < c.left + c.width && c.left < a.left + a.width &&
    a.top < c.top + c.height && c.top < a.top + a.height
  }

  function BirdBox(b: Bird): Box { Box(b.x, b.y, b.width, b.height) }
  function TopBox(p: Pipe): Box { Box(p.x, p.top.y, p.width, p.top.height) }
  function BottomBox(p: Pipe): Box { Box(p.x, p.bottom.y, p.width, p.bottom.height) }

  /** For a bird within the screen, the pipe test of checkCollisions is
      exactly "the bird's box overlaps the top or the bottom pipe". */
  lemma PipeHitIsOverlap(b: Bird, p: Pipe, canvasHeight: nat)
    requires WellShaped(p, canvasHeight)
    requires b.height > 0.0 && 0.0 <= b.y && b.y + b.height <= GroundTop(canvasHeight)
    ensures PipeHit(b, p) <==>
      Intersect(BirdBox(b), TopBox(p)) || Intersect(BirdBox(b), BottomBox(p))
  {
  }
}
