/**
 * Face post-processor: the correction applied to the top and bottom faces
 * before they are shown or exported, and the rotation state it reads.
 * Only top and bottom are touched: first a vertical flip when enabled, then a
 * clockwise rotation by the face's angle when it is non-zero (PIL's
 * `rotate(-rot)`). On a square face PIL performs a rotation by a multiple of
 * 90 degrees as an exact transposition, which is how it is modelled here:
 * `rot / 90` clockwise quarter turns.
 */
module FaceTransform {
  import opened Geometry

  /** Whether a face gets the flip-and-rotate correction. */
  predicate IsCap(f: Face) {
    f == Top || f == Bottom
  }

  /** The angles a face rotation can take. */
  predicate IsQuarter(r: int) {
    r == 0 || r == 90 || r == 180 || r == 270
  }

  /** One press of a face's rotate button: (r + 90) mod 360. */
  function NextRotation(r: int): (s: int)
    ensures IsQuarter(r) ==> IsQuarter(s)
    ensures IsQuarter(r) ==> s != r
  {
    (r + 90) % 360
  }

  /** Four presses bring a rotation back to where it started. */
  lemma FourPressesRestoreRotation(r: int)
    requires IsQuarter(r)
    ensures NextRotation(NextRotation(NextRotation(NextRotation(r)))) == r
  {
  }

  /** The rotation table: an entry for top and for bottom only, each a quarter angle. */
  predicate RotationsValid(m: map<Face, int>) {
    m.Keys == {Top, Bottom} && forall f :: f in m ==> IsQuarter(m[f])
  }

  /** The defaults that match the target engine's texture convention. */
  const DefaultRotations: map<Face, int> := map[Top := 270, Bottom := 90]

  /** The rotation a face is shown with: its entry, or 0 when it has none. */
  function RotationOf(m: map<Face, int>, f: Face): (r: int)
    ensures RotationsValid(m) ==> IsQuarter(r)
    ensures RotationsValid(m) && !IsCap(f) ==> r == 0
  {
    if f in m then m[f] else 0
  }

  predicate IsSquare<T>(g: seq<seq<T>>) {
    forall i :: 0 <= i < |g| ==> |g[i]| == |g|
  }

  /** ImageOps.flip: the rows in reverse order. */
  function FlipVertical<T>(g: seq<seq<T>>): seq<seq<T>> {
    seq(|g|, i requires 0 <= i < |g| => g[|g| - 1 - i])
  }

  /** Flipping twice gives back the original face, and a square face stays square. */
  lemma FlipVerticalInvolution<T>(g: seq<seq<T>>)
    ensures IsSquare(g) ==> IsSquare(FlipVertical(g))
    ensures FlipVertical(FlipVertical(g)) == g
  {
    var f := FlipVertical(g);
    assert forall i :: 0 <= i < |g| ==> FlipVertical(f)[i] == f[|g| - 1 - i] == g[i];
  }

  /** A clockwise quarter turn of a square face: the top row becomes the right column. */
  function QuarterTurn<T>(g: seq<seq<T>>): (r: seq<seq<T>>)
    requires IsSquare(g)
    ensures |r| == |g| && IsSquare(r)
  {
    var n := |g|;
    seq(n, i requires 0 <= i < n => seq(n, j requires 0 <= j < n => g[n - 1 - j][i]))
  }

  lemma QuarterTurnAt<T>(g: seq<seq<T>>, i: nat, j: nat)
    requires IsSquare(g) && i < |g| && j < |g|
    ensures QuarterTurn(g)[i][j] == g[|g| - 1 - j][i]
  {
  }

  /** k clockwise quarter turns. */
  function Turns<T>(g: seq<seq<T>>, k: nat): (r: seq<seq<T>>)
    requires IsSquare(g)
    ensures |r| == |g| && IsSquare(r)
  {
    if k == 0 then g else QuarterTurn(Turns(g, k - 1))
  }

  /** Turning a turns and then b more is turning a + b. */
  lemma {:induction false} TurnsAdd<T>(g: seq<seq<T>>, a: nat, b: nat)
    requires IsSquare(g)
    ensures Turns(Turns(g, a), b) == Turns(g, a + b)
  {
    if b > 0 {
      TurnsAdd(g, a, b - 1);
    }
  }

  /** Two grids of the same size that agree everywhere are equal. */
  lemma SameGrid<T>(g: seq<seq<T>>, h: seq<seq<T>>)
    requires IsSquare(g) && IsSquare(h) && |g| == |h|
    requires forall i, j :: 0 <= i < |g| && 0 <= j < |g| ==> g[i][j] == h[i][j]
    ensures g == h
  {
    forall i | 0 <= i < |g|
      ensures g[i] == h[i]
    {
      assert |g[i]| == |h[i]|;
      assert forall j :: 0 <= j < |g| ==> g[i][j] == h[i][j];
    }
  }

  /** Two quarter turns are the half turn: both axes reversed. */
  lemma HalfTurnAt<T>(g: seq<seq<T>>, i: nat, j: nat)
    requires IsSquare(g) && i < |g| && j < |g|
    ensures QuarterTurn(QuarterTurn(g))[i][j] == g[|g| - 1 - i][|g| - 1 - j]
  {
    var n := |g|;
    QuarterTurnAt(QuarterTurn(g), i, j);
    QuarterTurnAt(g, n - 1 - j, i);
  }

  lemma FourTurnsUnfold<T>(g: seq<seq<T>>)
    requires IsSquare(g)
    ensures Turns(g, 4) == QuarterTurn(QuarterTurn(QuarterTurn(QuarterTurn(g))))
  {
    assert Turns(g, 1) == QuarterTurn(g);
    assert Turns(g, 2) == QuarterTurn(QuarterTurn(g));
    assert Turns(g, 3) == QuarterTurn(QuarterTurn(QuarterTurn(g)));
  }

  /** Four quarter turns give back the original face. */
  lemma FourQuarterTurns<T>(g: seq<seq<T>>)
    requires IsSquare(g)
    ensures QuarterTurn(QuarterTurn(QuarterTurn(QuarterTurn(g)))) == g
  {
    var n := |g|;
    var h := QuarterTurn(QuarterTurn(g));
    var k := QuarterTurn(QuarterTurn(h));
    forall i, j | 0 <= i < n && 0 <= j < n
      ensures k[i][j] == g[i][j]
    {
      HalfTurnAt(h, i, j);
      HalfTurnAt(g, n - 1 - i, n - 1 - j);
    }
    SameGrid(k, g);
  }

  lemma FourTurnsIdentity<T>(g: seq<seq<T>>)
    requires IsSquare(g)
    ensures Turns(g, 4) == g
  {
    FourTurnsUnfold(g);
    FourQuarterTurns(g);
  }

  /** Four extra turns change nothing. */
  lemma TurnsSkipFour<T>(g: seq<seq<T>>, rest: nat)
    requires IsSquare(g)
    ensures Turns(g, 4 + rest) == Turns(g, rest)
  {
    TurnsAdd(g, 4, rest);
    FourTurnsIdentity(g);
  }

  /** Turning is periodic with period four. */
  lemma {:induction false} TurnsModFour<T>(g: seq<seq<T>>, k: nat)
    requires IsSquare(g)
    ensures Turns(g, k) == Turns(g, k % 4)
  {
    if k >= 4 {
      var rest: nat := k - 4;
      TurnsSkipFour(g, rest);
      TurnsModFour(g, rest);
      assert k == 4 + rest && rest % 4 == k % 4;
    }
  }

  /**
   * The correction of one face: top and bottom are flipped vertically when
   * `flip` is on, then turned clockwise by `rot` degrees when `rot` is not 0;
   * the four side faces pass through unchanged.
   */
  function PostProcess<T>(f: Face, g: seq<seq<T>>, flip: bool, rot: int): (r: seq<seq<T>>)
    requires IsSquare(g) && IsQuarter(rot)
    ensures |r| == |g| && IsSquare(r)
    ensures !IsCap(f) ==> r == g
  {
    if IsCap(f) then
      var flipped := if flip then FlipVertical(g) else g;
      FlipVerticalInvolution(g);
      if rot != 0 then Turns(flipped, rot / 90) else flipped
    else
      g
  }

  /**
   * One press of the rotate button turns the corrected top or bottom face a
   * further quarter turn clockwise, so four presses restore the face exactly.
   */
  lemma RotateButtonTurnsFace<T>(f: Face, g: seq<seq<T>>, flip: bool, rot: int)
    requires IsSquare(g) && IsQuarter(rot) && IsCap(f)
    ensures PostProcess(f, g, flip, NextRotation(rot)) == QuarterTurn(PostProcess(f, g, flip, rot))
  {
    CapCorrection(f, g, flip, rot);
    CapCorrection(f, g, flip, NextRotation(rot));
    var h := if flip then FlipVertical(g) else g;
    var k := rot / 90;
    if rot == 270 {
      assert NextRotation(rot) / 90 == 0 && k == 3;
      FourTurnsIdentity(h);
      assert Turns(h, 4) == QuarterTurn(Turns(h, 3));
    } else {
      assert NextRotation(rot) / 90 == k + 1;
    }
  }

  /** The inverse correction: undo the turns, then undo the flip. */
  function UndoPostProcess<T>(f: Face, g: seq<seq<T>>, flip: bool, rot: int): seq<seq<T>>
    requires IsSquare(g) && IsQuarter(rot)
  {
    if IsCap(f) then
      var unturned := Turns(g, (4 - rot / 90) % 4);
      if flip then FlipVertical(unturned) else unturned
    else
      g
  }

  /** The corrected top or bottom face is the flipped-or-not face turned rot/90 times. */
  lemma CapCorrection<T>(f: Face, g: seq<seq<T>>, flip: bool, rot: int)
    requires IsSquare(g) && IsQuarter(rot) && IsCap(f)
    ensures IsSquare(if flip then FlipVertical(g) else g)
    ensures PostProcess(f, g, flip, rot) == Turns(if flip then FlipVertical(g) else g, rot / 90)
  {
    FlipVerticalInvolution(g);
    var h := if flip then FlipVertical(g) else g;
    assert Turns(h, 0) == h;
  }

  /** Undoing the correction of a cap face undoes the turns, then the flip. */
  lemma CapUndo<T>(f: Face, r: seq<seq<T>>, flip: bool, rot: int)
    requires IsSquare(r) && IsQuarter(rot) && IsCap(f)
    ensures IsSquare(Turns(r, (4 - rot / 90) % 4))
    ensures UndoPostProcess(f, r, flip, rot) ==
            if flip then FlipVertical(Turns(r, (4 - rot / 90) % 4)) else Turns(r, (4 - rot / 90) % 4)
  {
  }

  /** A flipped cap face is recovered by undoing its turns and then its flip. */
  lemma FlippedCapInvertible<T>(f: Face, g: seq<seq<T>>, rot: int)
    requires IsSquare(g) && IsQuarter(rot) && IsCap(f)
    ensures UndoPostProcess(f, PostProcess(f, g, true, rot), true, rot) == g
  {
    var h := FlipVertical(g);
    var k := rot / 90;
    CapCorrection(f, g, true, rot);
    var r := Turns(h, k);
    assert PostProcess(f, g, true, rot) == r;
    TurnsComplement(h, k);
    CapUndo(f, r, true, rot);
    assert UndoPostProcess(f, r, true, rot) == FlipVertical(h);
    FlipVerticalInvolution(g);
  }

  /** An unflipped cap face is recovered by undoing its turns. */
  lemma UnflippedCapInvertible<T>(f: Face, g: seq<seq<T>>, rot: int)
    requires IsSquare(g) && IsQuarter(rot) && IsCap(f)
    ensures UndoPostProcess(f, PostProcess(f, g, false, rot), false, rot) == g
  {
    var k := rot / 90;
    CapCorrection(f, g, false, rot);
    TurnsComplement(g, k);
    CapUndo(f, Turns(g, k), false, rot);
  }

  /** The correction loses nothing: every face can be recovered from its corrected form. */
  lemma PostProcessInvertible<T>(f: Face, g: seq<seq<T>>, flip: bool, rot: int)
    requires IsSquare(g) && IsQuarter(rot)
    ensures UndoPostProcess(f, PostProcess(f, g, flip, rot), flip, rot) == g
  {
    if IsCap(f) {
      if flip {
        FlippedCapInvertible(f, g, rot);
      } else {
        UnflippedCapInvertible(f, g, rot);
      }
    }
  }

  /** Turning k times and then the complementary number of times is no turn at all. */
  lemma TurnsComplement<T>(h: seq<seq<T>>, k: nat)
    requires IsSquare(h) && k < 4
    ensures Turns(Turns(h, k), (4 - k) % 4) == h
  {
    if k == 0 {
      assert Turns(h, 0) == h;
    } else {
      var rest: nat := 4 - k;
      assert (4 - k) % 4 == rest;
      TurnsAdd(h, k, rest);
      assert k + rest == 4;
      FourTurnsIdentity(h);
    }
  }

  /** Every face of a set is square. */
  predicate ImagesSquare<T>(m: map<Face, seq<seq<T>>>) {
    forall f :: f in m ==> IsSquare(m[f])
  }

  /**
   * A set of faces as shown and as exported: every face through the same
   * correction, with the same flip setting and rotation table. Side faces are
   * unchanged.
   */
  function Corrected<T>(m: map<Face, seq<seq<T>>>, flip: bool, rots: map<Face, int>): (r: map<Face, seq<seq<T>>>)
    requires ImagesSquare(m) && RotationsValid(rots)
    ensures r.Keys == m.Keys && ImagesSquare(r)
    ensures forall f :: f in m && !IsCap(f) ==> r[f] == m[f]
  {
    map f | f in m :: PostProcess(f, m[f], flip, RotationOf(rots, f))
  }
}
