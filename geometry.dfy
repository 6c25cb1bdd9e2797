/** Plane geometry over the reals: the value view of a 2D vector and the
    operations the pytree vector class performs on it.

    The source computes with JavaScript's Math.sqrt, Math.cos, Math.sin,
    Math.acos, Math.atan2 and Math.PI. Their values are not modelled: a
    `Trig` value carries them as arbitrary functions, so every fact proved
    here holds whatever those functions return. */
module Geometry {

  /** The library of transcendental functions the source calls. */
  datatype Trig = Trig(
    sqrt: real -> real,
    cos: real -> real,
    sin: real -> real,
    acos: real -> real,
    atan2: (real, real) -> real,
    pi: real)
  {
    /** Degrees to radians, as the source converts them. */
    function Radians(degree: real): real { degree * (pi / 180.0) }

    /** The textbook identities of cos and sin at `rad`: the unit circle and
        the parity of the two functions. Nothing in the model assumes them;
        lemmas that need them say so. */
    ghost predicate CircleAt(rad: real) {
      && cos(rad) * cos(rad) + sin(rad) * sin(rad) == 1.0
      && cos(-rad) == cos(rad)
      && sin(-rad) == -sin(rad)
    }
  }

  /** The coordinates of a vector at one moment. */
  datatype Pt = Pt(x: real, y: real) {

    function Plus(q: Pt): Pt { Pt(x + q.x, y + q.y) }

    function Minus(q: Pt): Pt { Pt(x - q.x, y - q.y) }

    function Times(k: real): Pt { Pt(x * k, y * k) }

    function Over(k: real): Pt
      requires k != 0.0
    {
      Pt(x / k, y / k)
    }

    /** Euclidean length, through the library's square root. */
    function Len(trig: Trig): real { trig.sqrt(x * x + y * y) }

    /** Division by the length, except that a vector whose length is exactly
        zero is left as it is. */
    function Normalized(trig: Trig): Pt {
      var len := Len(trig);
      if len == 0.0 then this else Over(len)
    }

    /** The system's one rotation convention (clockwise in a y-up frame). */
    function RotR(trig: Trig, rad: real): Pt {
      var c, s := trig.cos(rad), trig.sin(rad);
      Pt(x * c + y * s, -x * s + y * c)
    }

    /** Rotation by an angle given in degrees. */
    function Rot(trig: Trig, degree: real): Pt {
      RotR(trig, trig.Radians(degree))
    }
  }

  /** The point halfway between `p` and `q`. */
  function Mid(p: Pt, q: Pt): Pt {
    Pt((p.x + q.x) / 2.0, (p.y + q.y) / 2.0)
  }

  /** Translating `p` by `q - p` lands exactly on `q`: the step that aligns a
      child square's corner with its parent's. */
  lemma PlusMinusCancel(p: Pt, q: Pt)
    ensures p.Plus(q.Minus(p)) == q
  {
  }

  /** Subtracting undoes adding. */
  lemma MinusUndoesPlus(p: Pt, q: Pt)
    ensures p.Plus(q).Minus(q) == p
  {
  }

  /** Dividing by a non-zero factor undoes multiplying by it. */
  lemma OverUndoesTimes(p: Pt, k: real)
    requires k != 0.0
    ensures p.Times(k).Over(k) == p
  {
  }

  /** Normalization loses only the length: scaling the normalized vector
      back by the length gives the vector again; a vector of length zero is
      returned as it is. */
  lemma NormalizedRoundTrip(trig: Trig, p: Pt)
    ensures p.Len(trig) != 0.0 ==> p.Normalized(trig).Times(p.Len(trig)) == p
    ensures p.Len(trig) == 0.0 ==> p.Normalized(trig) == p
  {
  }

  /** Midpoints commute with translation. */
  lemma MidPlus(p: Pt, q: Pt, v: Pt)
    ensures Mid(p.Plus(v), q.Plus(v)) == Mid(p, q).Plus(v)
  {
  }

  /** When cos and sin obey the unit circle and parity identities at `rad`,
      rotating by `-rad` undoes rotating by `rad`. */
  lemma RotRInverse(trig: Trig, p: Pt, rad: real)
    requires trig.CircleAt(rad)
    ensures p.RotR(trig, rad).RotR(trig, -rad) == p
  {
  }

  /** Under the unit-circle identity, rotation keeps the squared length. */
  lemma RotRKeepsNorm(trig: Trig, p: Pt, rad: real)
    requires trig.CircleAt(rad)
    ensures var q := p.RotR(trig, rad); q.x * q.x + q.y * q.y == p.x * p.x + p.y * p.y
  {
  }
}
