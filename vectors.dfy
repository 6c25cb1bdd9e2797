/** The mutable 2D vector of pytree.js. Every arithmetic, normalize and
    rotate operation comes twice: a mutating form that overwrites `x`/`y`
    and returns the receiver, and a copying form that leaves the receiver
    alone and returns a new vector. Both forms are tied to the same function
    of `Geometry.Pt`, so they agree on the coordinates they produce. `Copy`
    has only the copying form; `Length` only reads the coordinates. */
module Vectors {
  import opened Geometry

  class Vec {
    var x: real
    var y: real

    constructor (x0: real, y0: real)
      ensures x == x0 && y == y0
    {
      x, y := x0, y0;
    }

    /** The coordinates as a value. */
    function Value(): Pt
      reads this
    {
      Pt(x, y)
    }

    /** `length()`: the Euclidean norm through the library's square root. */
    function Length(trig: Trig): real
      reads this
    {
      Value().Len(trig)
    }

    // ---- mutating forms: overwrite the receiver and return it ----

    method Add(v: Vec) returns (r: Vec)
      modifies this
      ensures r == this
      ensures Value() == old(Value()).Plus(old(v.Value()))
    {
      x := x + v.x;
      y := y + v.y;
      r := this;
    }

    method Subtract(v: Vec) returns (r: Vec)
      modifies this
      ensures r == this
      ensures Value() == old(Value()).Minus(old(v.Value()))
    {
      x := x - v.x;
      y := y - v.y;
      r := this;
    }

    method Divide(value: real) returns (r: Vec)
      requires value != 0.0
      modifies this
      ensures r == this
      ensures Value() == old(Value()).Over(value)
    {
      x := x / value;
      y := y / value;
      r := this;
    }

    method Multiply(value: real) returns (r: Vec)
      modifies this
      ensures r == this
      ensures Value() == old(Value()).Times(value)
    {
      x := x * value;
      y := y * value;
      r := this;
    }

    /** Divides by the length, unless the length is exactly zero, in which
        case the receiver is returned untouched. */
    method Normalize(trig: Trig) returns (r: Vec)
      modifies this
      ensures r == this
      ensures Value() == old(Value()).Normalized(trig)
      ensures old(Length(trig)) == 0.0 ==> Value() == old(Value())
    {
      var length := Length(trig);
      if length == 0.0 {
        return this;
      }
      r := Divide(length);
    }

    method Rotate(trig: Trig, degree: real) returns (r: Vec)
      modifies this
      ensures r == this
      ensures Value() == old(Value()).Rot(trig, degree)
    {
      var rad := trig.Radians(degree);
      var x' := x * trig.cos(rad) + y * trig.sin(rad);
      var y' := -x * trig.sin(rad) + y * trig.cos(rad);
      x := x';
      y := y';
      r := this;
    }

    method RotateR(trig: Trig, rad: real) returns (r: Vec)
      modifies this
      ensures r == this
      ensures Value() == old(Value()).RotR(trig, rad)
    {
      var x' := x * trig.cos(rad) + y * trig.sin(rad);
      var y' := -x * trig.sin(rad) + y * trig.cos(rad);
      x := x';
      y := y';
      r := this;
    }

    // ---- copying forms: a new vector, the receiver unchanged ----

    method Copy() returns (r: Vec)
      ensures fresh(r) && r.Value() == Value()
    {
      r := new Vec(x, y);
    }

    method AddNew(v: Vec) returns (r: Vec)
      ensures fresh(r) && r.Value() == Value().Plus(v.Value())
    {
      r := new Vec(x + v.x, y + v.y);
    }

    method SubtractNew(v: Vec) returns (r: Vec)
      ensures fresh(r) && r.Value() == Value().Minus(v.Value())
    {
      r := new Vec(x - v.x, y - v.y);
    }

    method DivideNew(value: real) returns (r: Vec)
      requires value != 0.0
      ensures fresh(r) && r.Value() == Value().Over(value)
    {
      r := new Vec(x / value, y / value);
    }

    method MultiplyNew(value: real) returns (r: Vec)
      ensures fresh(r) && r.Value() == Value().Times(value)
    {
      r := new Vec(x * value, y * value);
    }

    /** Returns the receiver itself, not a copy, when its length is zero. */
    method NormalizeNew(trig: Trig) returns (r: Vec)
      ensures Length(trig) == 0.0 ==> r == this
      ensures Length(trig) != 0.0 ==> fresh(r)
      ensures r.Value() == Value().Normalized(trig)
    {
      var length := Length(trig);
      if length == 0.0 {
        return this;
      }
      r := DivideNew(length);
    }

    method RotateNew(trig: Trig, degree: real) returns (r: Vec)
      ensures fresh(r) && r.Value() == Value().Rot(trig, degree)
    {
      var rad := trig.Radians(degree);
      var x' := x * trig.cos(rad) + y * trig.sin(rad);
      var y' := -x * trig.sin(rad) + y * trig.cos(rad);
      r := new Vec(x', y');
    }

    method RotateRNew(trig: Trig, rad: real) returns (r: Vec)
      ensures fresh(r) && r.Value() == Value().RotR(trig, rad)
    {
      var x' := x * trig.cos(rad) + y * trig.sin(rad);
      var y' := -x * trig.sin(rad) + y * trig.cos(rad);
      r := new Vec(x', y');
    }
  }
}
