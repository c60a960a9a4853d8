/**
 * Instruction decoding shared by every generation of the Intcode machine:
 * the opcode is the word's two low decimal digits, the addressing modes of
 * parameters 1, 2 and 3 are its next three decimal digits.
 */
module Decoder {
  import opened Wrappers

  /** The number with its k low decimal digits dropped (k integer divisions by 10). */
  function Shift(n: nat, k: nat): nat {
    if k == 0 then n else Shift(n, k - 1) / 10
  }

  /** The k-th decimal digit of a non-negative number, counting from the units. */
  function Digit(n: nat, k: nat): (d: nat)
    ensures d < 10
  {
    Shift(n, k) % 10
  }

  /**
   * JavaScript's `%` with a positive divisor: the remainder takes the sign of
   * the dividend, unlike Dafny's Euclidean `%`.
   */
  function JsRem(a: int, b: int): (r: int)
    requires b > 0
    ensures a >= 0 ==> 0 <= r < b && r == a % b
    ensures a < 0 ==> -b < r <= 0
  {
    if a >= 0 then a % b else -((-a) % b)
  }

  /**
   * `_opCode`: the word's remainder by 100, as JavaScript computes it.
   * A negative word gives a non-positive opcode, which no instruction has.
   */
  function OpCode(instruction: int): (op: int)
    ensures instruction >= 0 ==> op == Digit(instruction, 0) + 10 * Digit(instruction, 1)
    ensures instruction < 0 ==> op <= 0
  {
    JsRem(instruction, 100)
  }

  /**
   * `_parameterModes`: the addressing modes of parameters 1, 2 and 3, taken
   * digit by digit from the word with its opcode removed.
   */
  method ParameterModes(instruction: int) returns (modes: seq<int>)
    requires instruction >= 0
    ensures |modes| == 3
    ensures forall k :: 0 <= k < 3 ==> modes[k] == Digit(instruction, k + 2)
  {
    var value := instruction / 100;
    assert value == Shift(instruction, 2) by {
      assert Shift(instruction, 1) == instruction / 10;
      assert Shift(instruction, 2) == instruction / 10 / 10;
    }
    modes := [];
    var i := 0;
    while i < 3
      invariant 0 <= i <= 3
      invariant |modes| == i
      invariant value == Shift(instruction, i + 2)
      invariant forall k :: 0 <= k < i ==> modes[k] == Digit(instruction, k + 2)
    {
      modes := modes + [value % 10];
      value := value / 10;
      i := i + 1;
    }
  }

  /** The modes as a function of the word, for specifications: the same digits. */
  function Modes(instruction: nat): (modes: seq<nat>)
    ensures |modes| == 3
  {
    [Digit(instruction, 2), Digit(instruction, 3), Digit(instruction, 4)]
  }

  /** Builds an instruction word from an opcode and three modes. */
  function Encode(op: nat, m1: nat, m2: nat, m3: nat): nat {
    op + 100 * m1 + 1000 * m2 + 10000 * m3
  }

  /**
   * Decoding undoes encoding: an opcode below 100 and three single-digit
   * modes come back from the word they make.
   */
  lemma {:induction false} DecodeEncode(op: nat, m1: nat, m2: nat, m3: nat)
    requires op < 100 && m1 < 10 && m2 < 10 && m3 < 10
    ensures OpCode(Encode(op, m1, m2, m3)) == op
    ensures Modes(Encode(op, m1, m2, m3)) == [m1, m2, m3]
  {
    var w := Encode(op, m1, m2, m3);
    assert Shift(w, 1) == op / 10 + 10 * m1 + 100 * m2 + 1000 * m3;
    assert Shift(w, 2) == m1 + 10 * m2 + 100 * m3;
    assert Shift(w, 3) == m2 + 10 * m3;
    assert Shift(w, 4) == m3;
  }

  /**
   * `_parameterCount` of the extended machine: how many parameters follow the
   * opcode; None where the source throws 'Unsupported opcode'.
   */
  function ParameterCount(op: int): (count: Option<nat>)
    ensures count.Some? <==> (1 <= op <= 9 || op == 99)
    ensures count == Some(0) <==> op == 99
    ensures count == Some(1) <==> op in {3, 4, 9}
    ensures count == Some(2) <==> op in {5, 6}
    ensures count == Some(3) <==> op in {1, 2, 7, 8}
  {
    match op
    case 99 => Some(0)
    case 3 => Some(1)
    case 4 => Some(1)
    case 9 => Some(1)
    case 5 => Some(2)
    case 6 => Some(2)
    case 1 => Some(3)
    case 2 => Some(3)
    case 7 => Some(3)
    case 8 => Some(3)
    case _ => None
  }

  /**
   * `_getParameterCount` of the suspendable machine: the same table without
   * opcode 9, which that generation rejects.
   */
  function ParameterCountNoRelative(op: int): (count: Option<nat>)
    ensures count == if op == 9 then None else ParameterCount(op)
  {
    match op
    case 99 => Some(0)
    case 3 => Some(1)
    case 4 => Some(1)
    case 5 => Some(2)
    case 6 => Some(2)
    case 1 => Some(3)
    case 2 => Some(3)
    case 7 => Some(3)
    case 8 => Some(3)
    case _ => None
  }

  /** Dropping two digits then k more is dropping k + 2. */
  lemma {:induction false} ShiftHundred(n: nat, k: nat)
    ensures Shift(n / 100, k) == Shift(n, k + 2)
  {
    if k == 0 {
      assert Shift(n, 1) == n / 10;
      assert Shift(n, 2) == n / 10 / 10;
    } else {
      ShiftHundred(n, k - 1);
    }
  }
}
