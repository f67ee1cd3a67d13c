/**
 * The two accumulation framebuffers of src/core/Screen.h and the parity rule
 * that picks, for frame `LoopNum`, the slot drawn into and the slot read as
 * history. Each framebuffer is reduced to its two GL handles and the size of
 * its colour storage; the GL calls themselves are not part of this model.
 */
module Screens {

  /** C++ `/` on `int` for a positive divisor: the quotient is truncated toward zero. */
  function CppQuot(a: int, b: int): int
    requires b > 0
  {
    if a >= 0 then a / b else -((-a) / b)
  }

  /**
   * C++ `%` on `int` for a positive divisor: what is left after taking away
   * the truncated quotient, so the remainder has the sign of the dividend.
   */
  function CppRem(a: int, b: int): (r: int)
    requires b > 0
    ensures CppQuot(a, b) * b + r == a
    ensures a >= 0 ==> 0 <= r < b
    ensures a < 0 ==> -b < r <= 0
  {
    if a >= 0 then a % b
    else
      var q := (-a) / b;
      assert q * b + (-a) % b == -a;
      assert CppQuot(a, b) * b == -(q * b);
      -((-a) % b)
  }

  /** The slot holding the previous frames: `LoopNum % 2`. */
  function HistIndex(loopNum: int): int {
    CppRem(loopNum, 2)
  }

  /** The slot the new frame is drawn into: the other one. */
  function CurIndex(loopNum: int): int {
    if HistIndex(loopNum) == 0 then 1 else 0
  }

  /** For a non-negative counter both choices are valid slots, and they differ. */
  lemma SlotsAreDistinct(loopNum: int)
    requires loopNum >= 0
    ensures 0 <= HistIndex(loopNum) <= 1 && 0 <= CurIndex(loopNum) <= 1
    ensures CurIndex(loopNum) == 1 - HistIndex(loopNum)
    ensures HistIndex(loopNum) == 0 <==> loopNum % 2 == 0
  {
  }

  /** The slot drawn into at frame n is the slot read as history at frame n + 1. */
  lemma {:induction false} WrittenThenRead(n: int)
    requires n >= 0
    ensures CurIndex(n) == HistIndex(n + 1)
    ensures HistIndex(n) == HistIndex(n + 2)
  {
    if n % 2 == 0 {
      assert (n + 1) % 2 == 1;
    } else {
      assert (n + 1) % 2 == 0;
    }
  }

  /** A negative odd counter gives history index -1, outside the two slots. */
  lemma NegativeOddCounter(n: int)
    requires n < 0
    ensures HistIndex(n) == -1 <==> n % 2 == 1
    ensures HistIndex(n) != -1 ==> HistIndex(n) == 0
  {
  }

  /** A colour framebuffer: its framebuffer and texture handles and the size of its colour storage. */
  datatype Fbo = Fbo(framebuffer: nat, colorTexture: nat, width: int, height: int)

  /**
   * `GetTextureColorBufferId` as written: it returns the framebuffer handle,
   * not the colour texture handle its name promises.
   */
  function TextureIdAsWritten(f: Fbo): (r: nat)
    ensures r == f.framebuffer
    ensures r == f.colorTexture <==> f.framebuffer == f.colorTexture
  {
    f.framebuffer
  }

  /** The evidently intended accessor: the colour texture handle. */
  function TextureId(f: Fbo): (r: nat)
    ensures r == f.colorTexture
  {
    f.colorTexture
  }

  /** A framebuffer whose two handles differ exposes the wrong one. */
  lemma TextureIdMismatch()
    ensures TextureIdAsWritten(Fbo(2, 3, 1024, 512)) == 2
    ensures TextureId(Fbo(2, 3, 1024, 512)) == 3
  {
  }

  class RenderBuffer {
    var currentIndex: int
    const fbo: array<Fbo>

    ghost predicate Valid()
      reads this
    {
      fbo.Length == 2
    }

    /** Two unconfigured slots. */
    constructor ()
      ensures Valid() && fresh(fbo)
      ensures fbo[0] == Fbo(0, 0, 0, 0) && fbo[1] == Fbo(0, 0, 0, 0)
    {
      currentIndex := 0;
      fbo := new Fbo[2] [Fbo(0, 0, 0, 0), Fbo(0, 0, 0, 0)];
    }

    /**
     * Configures both slots at the given size. The handles GL generates are
     * parameters.
     */
    method Init(width: int, height: int, framebuffer0: nat, texture0: nat, framebuffer1: nat, texture1: nat)
      requires Valid()
      modifies this, fbo
      ensures Valid()
      ensures fbo[0] == Fbo(framebuffer0, texture0, width, height)
      ensures fbo[1] == Fbo(framebuffer1, texture1, width, height)
      ensures currentIndex == 0
    {
      fbo[0] := Fbo(framebuffer0, texture0, width, height);
      fbo[1] := Fbo(framebuffer1, texture1, width, height);
      currentIndex := 0;
    }

    /** Re-allocates the colour storage of both slots; the handles stay. */
    method Resize(width: int, height: int)
      requires Valid()
      modifies fbo
      ensures forall k :: 0 <= k < 2 ==> fbo[k] == old(fbo[k]).(width := width, height := height)
    {
      fbo[0] := fbo[0].(width := width, height := height);
      fbo[1] := fbo[1].(width := width, height := height);
    }

    /** Binds the draw slot as the render target and the history slot as the input texture. */
    method SetCurrentBuffer(loopNum: int) returns (drawSlot: int, historySlot: int)
      requires Valid() && loopNum >= 0
      ensures drawSlot == CurIndex(loopNum) && historySlot == HistIndex(loopNum)
      ensures 0 <= drawSlot < fbo.Length && 0 <= historySlot < fbo.Length
      ensures drawSlot != historySlot
      ensures historySlot == loopNum % 2
    {
      var histIndex := CppRem(loopNum, 2);
      var curIndex := if histIndex == 0 then 1 else 0;
      drawSlot, historySlot := curIndex, histIndex;
    }

    /** Binds the slot just drawn into as the input texture of the display passes. */
    method SetCurrentAsTexture(loopNum: int) returns (textureSlot: int)
      requires Valid() && loopNum >= 0
      ensures textureSlot == CurIndex(loopNum)
      ensures 0 <= textureSlot < fbo.Length
      ensures textureSlot == 1 - loopNum % 2
    {
      var histIndex := CppRem(loopNum, 2);
      var curIndex := if histIndex == 0 then 1 else 0;
      textureSlot := curIndex;
    }

    /** The handle of the slot just drawn into, as `GetTextureColorBufferId` reports it. */
    method GetCurrentTexture(loopNum: int) returns (id: nat)
      requires Valid() && loopNum >= 0
      ensures 0 <= CurIndex(loopNum) < fbo.Length
      ensures id == TextureIdAsWritten(fbo[CurIndex(loopNum)]) == fbo[1 - loopNum % 2].framebuffer
    {
      var histIndex := CppRem(loopNum, 2);
      var curIndex := if histIndex == 0 then 1 else 0;
      id := TextureIdAsWritten(fbo[curIndex]);
    }
  }
}
