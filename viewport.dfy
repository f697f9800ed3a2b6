/**
 * opengl/wrap/Viewport.h: a viewport or scissor rectangle with an optional
 * clear colour. The colour's red component doubles as a switch: only a red
 * value in [0, 1] makes apply() clear; -1000 is the "no clear" marker.
 * Colour components are modelled as reals.
 */
module GLViewport {
  import opened GLCalls

  /** The red value that switches clearing off: the initial m_clear_color[0] and what disableClearColor() stores. */
  const CLEAR_OFF: real := -1000.0

  /** Whether a red component switches clearing on. */
  predicate ClearsWith(red: real)
  {
    0.0 <= red <= 1.0
  }

  /** Example: the marker value switches clearing off. */
  lemma ClearOffDoesNotClear()
    ensures !ClearsWith(CLEAR_OFF)
  {
  }

  /** The static viewport(x, y, width, height, scissor): one glScissor call, or one glViewport call. */
  method Place(x: int, y: int, width: int, height: int, scissor: bool) returns (calls: seq<GLCall>)
    ensures |calls| == 1
    ensures scissor ==> calls[0] == GLCall.Scissor(x, y, width, height)
    ensures !scissor ==> calls[0] == GLCall.Viewport(x, y, width, height)
  {
    if scissor {
      calls := [GLCall.Scissor(x, y, width, height)];
    } else {
      calls := [GLCall.Viewport(x, y, width, height)];
    }
  }

  class Viewport {
    /** m_x, m_y, m_width, m_height */
    var x: int
    var y: int
    var width: int
    var height: int
    /** m_scissor */
    var scissor: bool
    /** m_clear_color: red, green, blue, alpha. */
    const clearColor: array<real>

    ghost predicate Valid()
      reads this
    {
      clearColor.Length == 4
    }

    /** Whether apply() clears: the stored red component is in [0, 1]. */
    predicate Clears()
      reads this, clearColor
      requires Valid()
    {
      ClearsWith(clearColor[0])
    }

    /** Viewport(width, height, scissor): placed at the origin, clearing off. */
    constructor Sized(w: int, h: int, s: bool)
      ensures Valid() && fresh(clearColor)
      ensures x == 0 && y == 0 && width == w && height == h && scissor == s
      ensures clearColor[..] == [CLEAR_OFF, 0.0, 0.0, 0.0] && !Clears()
    {
      x, y, width, height, scissor := 0, 0, w, h, s;
      clearColor := new real[4] [CLEAR_OFF, 0.0, 0.0, 0.0];
    }

    /** Viewport(x, y, width, height, scissor): clearing off. */
    constructor (x0: int, y0: int, w: int, h: int, s: bool)
      ensures Valid() && fresh(clearColor)
      ensures x == x0 && y == y0 && width == w && height == h && scissor == s
      ensures clearColor[..] == [CLEAR_OFF, 0.0, 0.0, 0.0] && !Clears()
    {
      x, y, width, height, scissor := x0, y0, w, h, s;
      clearColor := new real[4] [CLEAR_OFF, 0.0, 0.0, 0.0];
    }

    /** set(width, height, scissor): set(0, 0, width, height, scissor). */
    method SetSize(w: int, h: int, s: bool)
      modifies this
      ensures x == 0 && y == 0 && width == w && height == h && scissor == s
    {
      Set(0, 0, w, h, s);
    }

    /** set(x, y, width, height, scissor): the clear colour is kept. */
    method Set(x0: int, y0: int, w: int, h: int, s: bool)
      modifies this
      ensures x == x0 && y == y0 && width == w && height == h && scissor == s
    {
      x, y, width, height, scissor := x0, y0, w, h, s;
    }

    /** enableClearColor(r, g, b, a): clearing is on only when `red` is in [0, 1]. */
    method EnableClearColor(red: real, green: real, blue: real, alpha: real)
      requires Valid()
      modifies clearColor
      ensures clearColor[..] == [red, green, blue, alpha]
      ensures Clears() <==> 0.0 <= red <= 1.0
    {
      clearColor[0] := red;
      clearColor[1] := green;
      clearColor[2] := blue;
      clearColor[3] := alpha;
    }

    /** disableClearColor(): only the red component changes, to the marker. */
    method DisableClearColor()
      requires Valid()
      modifies clearColor
      ensures clearColor[..] == old(clearColor[..])[0 := CLEAR_OFF]
      ensures !Clears()
    {
      clearColor[0] := CLEAR_OFF;
    }

    /**
     * set(const Viewport&): copies every field, the clear colour included.
     * Each viewport owns its colour array, as a C++ array member does.
     */
    method SetFrom(v: Viewport)
      requires Valid() && v.Valid() && (v == this || v.clearColor != clearColor)
      modifies this, clearColor
      ensures x == old(v.x) && y == old(v.y) && width == old(v.width) && height == old(v.height)
      ensures scissor == old(v.scissor)
      ensures clearColor[..] == old(v.clearColor[..])
      ensures Clears() == old(v.Clears())
    {
      x, y, width, height, scissor := v.x, v.y, v.width, v.height, v.scissor;
      clearColor[0] := v.clearColor[0];
      clearColor[1] := v.clearColor[1];
      clearColor[2] := v.clearColor[2];
      clearColor[3] := v.clearColor[3];
    }

    /**
     * apply(): with a non-empty size, a glScissor call when the scissor flag
     * is set and a glViewport call otherwise; with an empty size neither.
     * Then, when clearing is on, glClearColor with the stored colour and
     * glClear.
     */
    method Apply() returns (calls: seq<GLCall>)
      requires Valid()
      ensures |calls| == (if width > 0 && height > 0 then 1 else 0) + (if Clears() then 2 else 0)
      ensures width > 0 && height > 0 && scissor ==> calls[0] == GLCall.Scissor(x, y, width, height)
      ensures width > 0 && height > 0 && !scissor ==> calls[0] == GLCall.Viewport(x, y, width, height)
      ensures Clears() ==>
                calls[|calls| - 2..] == [ClearColor(clearColor[0], clearColor[1], clearColor[2], clearColor[3]), Clear]
      ensures Clear in calls <==> Clears()
    {
      calls := [];
      if scissor && width > 0 && height > 0 {
        calls := [GLCall.Scissor(x, y, width, height)];
      } else if width > 0 && height > 0 {
        calls := [GLCall.Viewport(x, y, width, height)];
      }
      if clearColor[0] >= 0.0 && clearColor[0] <= 1.0 {
        calls := calls + [ClearColor(clearColor[0], clearColor[1], clearColor[2], clearColor[3]), Clear];
      }
    }
  }
}
