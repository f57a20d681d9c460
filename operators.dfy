/**
 * base::Add, Subtract, Multiply and Divide: numbers whose value is combined
 * with every further number given to them. Each number given at any slot
 * becomes the second operand `n2` and the operation is applied to `val`
 * once, so the slots n2 .. n10 fold the operation over the value left to
 * right. Division by zero is skipped.
 */
module BaseOperators {
  import opened Common

  datatype Operator = Add | Subtract | Multiply | Divide

  /** operation(): the new value for the current value `val` and operand `n2`. */
  function Apply(op: Operator, val: real, n2: real): (r: real)
    ensures op == Add ==> r == val + n2
    ensures op == Subtract ==> r == val - n2
    ensures op == Multiply ==> r == val * n2
    ensures op == Divide ==> r == Quotient(val, n2)
  {
    match op
    case Add => val + n2
    case Subtract => val - n2
    case Multiply => val * n2
    case Divide => Quotient(val, n2)
  }

  /** Divide::operation(): only a nonzero divisor is applied. */
  function Quotient(val: real, n2: real): (r: real)
    ensures n2 == 0.0 ==> r == val
    ensures n2 != 0.0 ==> r == val / n2
  {
    if n2 != 0.0 then val / n2 else val
  }

  /** The value after the numbers `ns` have been given in order. */
  function Fold(op: Operator, val: real, ns: seq<real>): real
    decreases |ns|
  {
    if ns == [] then val else Fold(op, Apply(op, val, ns[0]), ns[1..])
  }

  function Sum(ns: seq<real>): real
    decreases |ns|
  {
    if ns == [] then 0.0 else ns[0] + Sum(ns[1..])
  }

  function Product(ns: seq<real>): real
    decreases |ns|
  {
    if ns == [] then 1.0 else ns[0] * Product(ns[1..])
  }

  /** The nonzero elements of `ns`, in order. */
  function NonZero(ns: seq<real>): (r: seq<real>)
    ensures forall i :: 0 <= i < |r| ==> r[i] != 0.0
    decreases |ns|
  {
    if ns == [] then []
    else if ns[0] == 0.0 then NonZero(ns[1..])
    else [ns[0]] + NonZero(ns[1..])
  }

  /** An Add gives its value plus the sum of the numbers. */
  lemma {:induction false} AddFoldsToSum(val: real, ns: seq<real>)
    ensures Fold(Add, val, ns) == val + Sum(ns)
    decreases |ns|
  {
    if ns != [] {
      AddFoldsToSum(val + ns[0], ns[1..]);
    }
  }

  /** A Subtract gives its value minus the sum of the numbers. */
  lemma {:induction false} SubtractFoldsToDifference(val: real, ns: seq<real>)
    ensures Fold(Subtract, val, ns) == val - Sum(ns)
    decreases |ns|
  {
    if ns != [] {
      SubtractFoldsToDifference(val - ns[0], ns[1..]);
    }
  }

  /** A Multiply gives its value times the product of the numbers. */
  lemma {:induction false} MultiplyFoldsToProduct(val: real, ns: seq<real>)
    ensures Fold(Multiply, val, ns) == val * Product(ns)
    decreases |ns|
  {
    if ns != [] {
      MultiplyFoldsToProduct(val * ns[0], ns[1..]);
      assert (val * ns[0]) * Product(ns[1..]) == val * (ns[0] * Product(ns[1..]));
    }
  }

  lemma {:induction false} ProductOfNonZeroIsNonZero(ns: seq<real>)
    requires forall i :: 0 <= i < |ns| ==> ns[i] != 0.0
    ensures Product(ns) != 0.0
    decreases |ns|
  {
    if ns != [] {
      ProductOfNonZeroIsNonZero(ns[1..]);
    }
  }

  /** A Divide skips every zero divisor. */
  lemma {:induction false} DivideSkipsZeros(val: real, ns: seq<real>)
    ensures Fold(Divide, val, ns) == Fold(Divide, val, NonZero(ns))
    decreases |ns|
  {
    if ns != [] {
      var v := Apply(Divide, val, ns[0]);
      DivideSkipsZeros(v, ns[1..]);
      if ns[0] != 0.0 {
        assert NonZero(ns) == [ns[0]] + NonZero(ns[1..]);
        assert ([ns[0]] + NonZero(ns[1..]))[1..] == NonZero(ns[1..]);
      }
    }
  }

  /**
   * With no zero divisor, a Divide gives its value divided by the product
   * of the numbers: multiplying the result back by that product restores
   * the value. With DivideSkipsZeros this covers every sequence of numbers.
   */
  lemma {:induction false} DivideByProduct(val: real, ns: seq<real>)
    requires forall i :: 0 <= i < |ns| ==> ns[i] != 0.0
    ensures Product(ns) != 0.0
    ensures Fold(Divide, val, ns) * Product(ns) == val
    decreases |ns|
  {
    ProductOfNonZeroIsNonZero(ns);
    if ns != [] {
      var v := Quotient(val, ns[0]);
      DivideByProduct(v, ns[1..]);
      Regroup(Fold(Divide, v, ns[1..]), ns[0], Product(ns[1..]));
    }
  }

  lemma Regroup(a: real, b: real, c: real)
    ensures a * (b * c) == (a * c) * b
  {
  }

  /** An Add, Subtract, Multiply or Divide number. */
  class Operation {
    const op: Operator
    var val: real
    var n2: real

    /** The number's value and the second operand start at the values the base classes give them. */
    constructor (op0: Operator, val0: real, n20: real)
      ensures op == op0 && val == val0 && n2 == n20
    {
      op := op0;
      val := val0;
      n2 := n20;
    }

    /** operation(): combine the value with the second operand, in place. */
    method Operation()
      modifies this
      ensures val == Apply(op, old(val), n2) && n2 == old(n2)
    {
      match op {
        case Add => val := val + n2;
        case Subtract => val := val - n2;
        case Multiply => val := val * n2;
        case Divide =>
          if n2 != 0.0 {
            val := val / n2;
          }
      }
    }

    /**
     * setSecondNumber(): a null number changes nothing; any other becomes
     * the second operand and is applied once. Both cases succeed.
     */
    method SetSecondNumber(ssn: Option<real>) returns (ok: bool)
      modifies this
      ensures ok
      ensures ssn.None? ==> val == old(val) && n2 == old(n2)
      ensures ssn.Some? ==> n2 == ssn.value && val == Apply(op, old(val), ssn.value)
    {
      if ssn.Some? {
        n2 := ssn.value;
        Operation();
      }
      ok := true;
    }

    /**
     * The slot map: a number at any slot index goes to setSecondNumber();
     * an object that is not a number is not taken here.
     */
    method SetSlotByIndex(slotIndex: nat, obj: Option<real>) returns (ok: bool)
      modifies this
      ensures ok <==> obj.Some?
      ensures obj.None? ==> val == old(val) && n2 == old(n2)
      ensures obj.Some? ==> n2 == obj.value && val == Fold(op, old(val), [obj.value])
    {
      ok := false;
      if obj.Some? {
        ok := SetSecondNumber(obj);
      }
    }
  }
}
