/**
 DC-bus model of a grid converter: a capacitor C_dc in parallel with a
 conductance G_dc, fed by an external current i_ext(t) and loaded by the
 converter's DC-side current i_dc. The state is the capacitor voltage u_dc.

 All quantities are real numbers; floating-point rounding is not modelled.
 */
module DcBus {

  /** A complex number, used for the converter's switching-state space vector q. */
  datatype Complex = Complex(re: real, im: real)

  /** A three-phase quantity: phase values a, b and c, in that order. */
  type Abc = s: seq<real> | |s| == 3 witness [0.0, 0.0, 0.0]

  /** Reference definition of the dot product of two equally long vectors. */
  function Dot(a: seq<real>, b: seq<real>): real
    requires |a| == |b|
  {
    if |a| == 0 then 0.0 else a[0] * b[0] + Dot(a[1..], b[1..])
  }

  /** Every component of `s` multiplied by `k`. */
  function Scale(k: real, s: seq<real>): seq<real>
  {
    seq(|s|, j requires 0 <= j < |s| => k * s[j])
  }

  /** Component-wise sum of two equally long vectors. */
  function Add(a: seq<real>, b: seq<real>): seq<real>
    requires |a| == |b|
  {
    seq(|a|, j requires 0 <= j < |a| => a[j] + b[j])
  }

  /** The vector of `n` zeros. */
  function Zeros(n: nat): seq<real>
  {
    seq(n, j => 0.0)
  }

  /** The dot product is homogeneous in its second argument. */
  lemma {:induction false} DotScale(a: seq<real>, b: seq<real>, k: real)
    requires |a| == |b|
    ensures Dot(a, Scale(k, b)) == k * Dot(a, b)
  {
    if |a| > 0 {
      forall j | 0 <= j < |b| - 1 ensures Scale(k, b)[1..][j] == Scale(k, b[1..])[j] {
      }
      assert Scale(k, b)[1..] == Scale(k, b[1..]);
      DotScale(a[1..], b[1..], k);
      assert a[0] * (k * b[0]) == k * (a[0] * b[0]);
    }
  }

  /** The dot product is additive in its second argument. */
  lemma {:induction false} DotAdd(a: seq<real>, b: seq<real>, c: seq<real>)
    requires |a| == |b| == |c|
    ensures Dot(a, Add(b, c)) == Dot(a, b) + Dot(a, c)
  {
    if |a| > 0 {
      assert Add(b, c)[1..] == Add(b[1..], c[1..]);
      DotAdd(a[1..], b[1..], c[1..]);
    }
  }

  /** The dot product with a zero vector, on either side, is zero. */
  lemma {:induction false} DotZeros(a: seq<real>)
    ensures Dot(a, Zeros(|a|)) == 0.0
    ensures Dot(Zeros(|a|), a) == 0.0
  {
    if |a| > 0 {
      assert Zeros(|a|)[1..] == Zeros(|a| - 1);
      DotZeros(a[1..]);
    }
  }

  /** The dot product of two three-phase quantities, term by term. */
  lemma DotAbc(a: Abc, b: Abc)
    ensures Dot(a, b) == a[0] * b[0] + a[1] * b[1] + a[2] * b[2]
  {
    assert Dot(a[3..], b[3..]) == 0.0;
    assert Dot(a[2..], b[2..]) == a[2] * b[2];
  }

  /** Phase `k` of a three-phase quantity alone: 1 in phase `k`, 0 elsewhere. */
  function UnitPhase(k: nat): Abc
    requires k < 3
  {
    seq(3, j => if j == k then 1.0 else 0.0)
  }

  /**
   The DC bus. Its fields are public and mutable, as in the source: a
   simulation stores the integrated voltage in u_dc0 and a scenario may
   replace the disturbance i_ext on a live object.
   */
  class DCBus {
    /** DC-bus capacitance (F). */
    var C_dc: real
    /** DC-bus conductance (S). */
    var G_dc: real
    /** External DC current, seen as a disturbance, as a function of time (A). */
    var i_ext: real -> real
    /** DC-bus voltage: the initial value, later the current state (V). */
    var u_dc0: real

    /** Stores the four parameters unchanged; each has the source's default. */
    constructor (C_dc: real := 0.001, G_dc: real := 0.0,
                 i_ext: real -> real := t => 0.0, u_dc0: real := 650.0)
      ensures this.C_dc == C_dc && this.G_dc == G_dc
      ensures this.i_ext == i_ext && this.u_dc0 == u_dc0
    {
      this.C_dc := C_dc;
      this.G_dc := G_dc;
      this.i_ext := i_ext;
      this.u_dc0 := u_dc0;
    }

    /**
     Converter DC current: the switching vector `q` is turned into three-phase
     switching ratios by `complex2abc` (a helper outside this model, passed as
     a parameter), whose dot product with the phase currents is the result.
     */
    static function DcCurrent(i_c_abc: Abc, q: Complex, complex2abc: Complex -> Abc): (i_dc: real)
      ensures i_dc == Dot(complex2abc(q), i_c_abc)
    {
      var q_abc := complex2abc(q);
      DotAbc(q_abc, i_c_abc);
      q_abc[0] * i_c_abc[0] + q_abc[1] * i_c_abc[1] + q_abc[2] * i_c_abc[2]
    }

    /**
     State derivative du_dc/dt of the DC-bus voltage at time `t`, from the
     current balance at the DC node.
     */
    function F(t: real, u_dc: real, i_c_abc: Abc, q: Complex, complex2abc: Complex -> Abc): (du_dc: real)
      reads this
      requires C_dc != 0.0
      ensures C_dc * du_dc == i_ext(t) - Dot(complex2abc(q), i_c_abc) - G_dc * u_dc
    {
      var i_dc := DcCurrent(i_c_abc, q, complex2abc);
      (i_ext(t) - i_dc - G_dc * u_dc) / C_dc
    }

    /** Measured DC voltage: the stored state, without noise or offset. */
    function MeasDcVoltage(): (u_dc: real)
      reads this
      ensures u_dc == u_dc0
    {
      u_dc0
    }

    /** Zero phase currents give zero DC current, whatever the switching state. */
    static lemma DcCurrentZeroCurrents(q: Complex, complex2abc: Complex -> Abc)
      ensures DcCurrent(Zeros(3), q, complex2abc) == 0.0
    {
      DotZeros(complex2abc(q));
    }

    /** A zero switching vector draws no DC current, whatever the phase currents. */
    static lemma DcCurrentZeroSwitching(i_c_abc: Abc, q: Complex, complex2abc: Complex -> Abc)
      requires complex2abc(q) == Zeros(3)
      ensures DcCurrent(i_c_abc, q, complex2abc) == 0.0
    {
      DotZeros(i_c_abc);
    }

    /** With only phase `k` connected to the positive rail, i_dc is that phase's current. */
    static lemma DcCurrentSinglePhase(i_c_abc: Abc, q: Complex, complex2abc: Complex -> Abc, k: nat)
      requires k < 3 && complex2abc(q) == UnitPhase(k)
      ensures DcCurrent(i_c_abc, q, complex2abc) == i_c_abc[k]
    {
    }

    /**
     Balanced phase currents (summing to zero, as in a three-wire connection)
     make the DC current blind to a common-mode shift: adding the same ratio
     `c` to all three phases leaves i_dc unchanged.
     */
    static lemma DcCurrentCommonMode(i_c_abc: Abc, q1: Complex, q2: Complex,
                                     complex2abc: Complex -> Abc, c: real)
      requires i_c_abc[0] + i_c_abc[1] + i_c_abc[2] == 0.0
      requires complex2abc(q2) == Add(complex2abc(q1), [c, c, c])
      ensures DcCurrent(i_c_abc, q2, complex2abc) == DcCurrent(i_c_abc, q1, complex2abc)
    {
      var q1_abc, q2_abc := complex2abc(q1), complex2abc(q2);
      assert q2_abc[0] * i_c_abc[0] + q2_abc[1] * i_c_abc[1] + q2_abc[2] * i_c_abc[2]
          == q1_abc[0] * i_c_abc[0] + q1_abc[1] * i_c_abc[1] + q1_abc[2] * i_c_abc[2]
             + c * (i_c_abc[0] + i_c_abc[1] + i_c_abc[2]);
    }

    /** Scaling the phase currents by `k` scales the DC current by `k`. */
    static lemma DcCurrentScale(i_c_abc: Abc, q: Complex, complex2abc: Complex -> Abc, k: real)
      ensures DcCurrent(Scale(k, i_c_abc), q, complex2abc) == k * DcCurrent(i_c_abc, q, complex2abc)
    {
      DotScale(complex2abc(q), i_c_abc, k);
    }

    /** The DC current of a sum of phase currents is the sum of their DC currents. */
    static lemma DcCurrentAdd(i1: Abc, i2: Abc, q: Complex, complex2abc: Complex -> Abc)
      ensures DcCurrent(Add(i1, i2), q, complex2abc)
           == DcCurrent(i1, q, complex2abc) + DcCurrent(i2, q, complex2abc)
    {
      DotAdd(complex2abc(q), i1, i2);
    }

    /** Equilibrium: the voltage is stationary exactly when the currents into the node balance. */
    lemma Equilibrium(t: real, u_dc: real, i_c_abc: Abc, q: Complex, complex2abc: Complex -> Abc)
      requires C_dc != 0.0
      ensures F(t, u_dc, i_c_abc, q, complex2abc) == 0.0
          <==> i_ext(t) == DcCurrent(i_c_abc, q, complex2abc) + G_dc * u_dc
    {
      var du_dc := F(t, u_dc, i_c_abc, q, complex2abc);
      if du_dc != 0.0 {
        assert C_dc * du_dc != 0.0;
      }
    }

    /**
     Sign: with a positive capacitance, the voltage rises exactly when the
     external current exceeds the current drawn, and falls exactly when it is smaller.
     */
    lemma Sign(t: real, u_dc: real, i_c_abc: Abc, q: Complex, complex2abc: Complex -> Abc)
      requires C_dc > 0.0
      ensures F(t, u_dc, i_c_abc, q, complex2abc) > 0.0
          <==> i_ext(t) > DcCurrent(i_c_abc, q, complex2abc) + G_dc * u_dc
      ensures F(t, u_dc, i_c_abc, q, complex2abc) < 0.0
          <==> i_ext(t) < DcCurrent(i_c_abc, q, complex2abc) + G_dc * u_dc
    {
      var du_dc := F(t, u_dc, i_c_abc, q, complex2abc);
      if du_dc > 0.0 {
        assert C_dc * du_dc > 0.0;
      } else if du_dc < 0.0 {
        assert C_dc * du_dc < 0.0;
      } else {
        assert C_dc * du_dc == 0.0;
      }
    }

    /** Without conductance (the default G_dc = 0), the derivative does not depend on u_dc. */
    lemma NoConductanceIndependentOfVoltage(t: real, u1: real, u2: real, i_c_abc: Abc, q: Complex,
                                            complex2abc: Complex -> Abc)
      requires C_dc != 0.0 && G_dc == 0.0
      ensures F(t, u1, i_c_abc, q, complex2abc) == F(t, u2, i_c_abc, q, complex2abc)
    {
      var d1 := F(t, u1, i_c_abc, q, complex2abc);
      var d2 := F(t, u2, i_c_abc, q, complex2abc);
      assert C_dc * d1 == C_dc * d2;
    }

    /**
     With a positive capacitance and a non-negative conductance, a higher bus
     voltage never gives a larger derivative: the conductance only damps.
     */
    lemma DerivativeNonIncreasingInVoltage(t: real, u1: real, u2: real, i_c_abc: Abc, q: Complex,
                                           complex2abc: Complex -> Abc)
      requires C_dc > 0.0 && G_dc >= 0.0 && u1 <= u2
      ensures F(t, u2, i_c_abc, q, complex2abc) <= F(t, u1, i_c_abc, q, complex2abc)
    {
      var d1 := F(t, u1, i_c_abc, q, complex2abc);
      var d2 := F(t, u2, i_c_abc, q, complex2abc);
      assert G_dc * u1 <= G_dc * u2;
      assert C_dc * d2 <= C_dc * d1;
    }

    /**
     With a non-zero conductance the equilibrium voltage is unique:
     u_dc = (i_ext(t) - i_dc) / G_dc.
     */
    lemma EquilibriumVoltage(t: real, u_dc: real, i_c_abc: Abc, q: Complex, complex2abc: Complex -> Abc)
      requires C_dc != 0.0 && G_dc != 0.0
      ensures F(t, u_dc, i_c_abc, q, complex2abc) == 0.0
          <==> u_dc == (i_ext(t) - DcCurrent(i_c_abc, q, complex2abc)) / G_dc
    {
      Equilibrium(t, u_dc, i_c_abc, q, complex2abc);
    }

    /** A bus built without arguments carries the source's default parameters. */
    static method DefaultBus() returns (bus: DCBus)
      ensures bus.C_dc == 0.001 && bus.G_dc == 0.0 && bus.u_dc0 == 650.0
      ensures forall t :: bus.i_ext(t) == 0.0
    {
      bus := new DCBus();
    }

    /** Measuring returns what was stored when the bus was built. */
    static method BuildAndMeasure(C_dc: real, G_dc: real, i_ext: real -> real, u_dc0: real)
      returns (u_dc: real)
      ensures u_dc == u_dc0
    {
      var bus := new DCBus(C_dc, G_dc, i_ext, u_dc0);
      u_dc := bus.MeasDcVoltage();
    }
  }
}
