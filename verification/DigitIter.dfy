/**
 The digit iterator of `capi/examples/example_iter_task.c`: a 64-bit integer is split into decimal
 digits held in a fixed array, reversed in place, and handed out one per call.
 */
module DigitIter {
  import opened Wrappers

  const INT64_MIN: int := -0x8000_0000_0000_0000
  const INT64_MAX: int := 0x7fff_ffff_ffff_ffff

  /** 64-bit negation as two's complement hardware does it; C leaves the minimum's undefined. */
  function Negate(v: int): int {
    if v == INT64_MIN then INT64_MIN else -v
  }

  function Magnitude(v: int): nat {
    if v < 0 then -v else v
  }

  // ----- Decimal notation -----

  /** Most significant digit first; nothing for zero. */
  function Decimal(n: nat): seq<int> {
    if n == 0 then [] else Decimal(n / 10) + [n % 10]
  }

  function Numeral(n: nat): seq<int> {
    if n == 0 then [0] else Decimal(n)
  }

  /** The number a sequence of digits denotes. */
  function Denotes(ds: seq<int>): int {
    if ds == [] then 0 else 10 * Denotes(ds[..|ds| - 1]) + ds[|ds| - 1]
  }

  /** Decimal digits, with no leading zero unless the number is zero itself. */
  predicate Canonical(ds: seq<int>) {
    && ds != []
    && (forall i :: 0 <= i < |ds| ==> 0 <= ds[i] <= 9)
    && (ds[0] == 0 ==> |ds| == 1)
  }

  lemma OneDigitMore(front: seq<int>, d: int)
    requires 0 <= d <= 9 && if front == [] then d > 0 else Canonical(front) && front[0] > 0
    ensures Canonical(front + [d]) && (front + [d])[0] > 0 && Denotes(front + [d]) == 10 * Denotes(front) + d
  {
    assert (front + [d])[..|front|] == front;
  }

  lemma {:induction false} DecimalMeaning(n: nat)
    requires n > 0
    ensures Canonical(Decimal(n)) && Denotes(Decimal(n)) == n && Decimal(n)[0] > 0
  {
    var q, d := n / 10, n % 10;
    assert Decimal(n) == Decimal(q) + [d];
    if q > 0 {
      DecimalMeaning(q);
    } else {
      assert Decimal(q) == [] && Denotes([]) == 0;
    }
    hide Decimal, Canonical, Denotes;
    OneDigitMore(Decimal(q), d);
  }

  /** One number, one numeral. */
  lemma {:induction false} NumeralUnique(ds: seq<int>)
    requires Canonical(ds)
    ensures Denotes(ds) >= 0 && ds == Numeral(Denotes(ds)) && (ds[0] > 0 ==> Denotes(ds) > 0)
  {
    var front, last := ds[..|ds| - 1], ds[|ds| - 1];
    if front == [] {
      assert ds == [last];
      assert Denotes(front) == 0 && Decimal(0) == [];
      assert last > 0 ==> Decimal(last) == Decimal(last / 10) + [last % 10];
    } else {
      NumeralUnique(front);
      var n := Denotes(ds);
      assert n / 10 == Denotes(front) && n % 10 == last;
      assert ds == front + [last];
    }
  }

  function Pow10(k: nat): nat {
    if k == 0 then 1 else 10 * Pow10(k - 1)
  }

  lemma {:induction false} DecimalLength(n: nat, k: nat)
    requires n < Pow10(k)
    ensures |Decimal(n)| <= k
  {
    if n > 0 && k > 0 {
      DecimalLength(n / 10, k - 1);
    }
  }

  /** No 64-bit magnitude needs more than 19 of the 20 slots. */
  lemma NineteenDigits(n: nat)
    requires n <= INT64_MAX
    ensures |Decimal(n)| <= 19
  {
    assert Pow10(5) == 100000;
    assert Pow10(10) == 100000 * Pow10(5);
    assert Pow10(15) == 100000 * Pow10(10);
    assert Pow10(19) == 10000 * Pow10(15);
    DecimalLength(n, 19);
  }

  function Reversed(s: seq<int>): seq<int> {
    seq(|s|, i requires 0 <= i < |s| => s[|s| - 1 - i])
  }

  /** What the iterator is to hand out. */
  function Digits(v: int): seq<int> {
    if v == INT64_MIN then [] else Numeral(Magnitude(v))
  }

  /** The digits handed out denote the value's magnitude, canonically, for every value but the minimum. */
  lemma DigitsDenote(v: int)
    requires INT64_MIN <= v <= INT64_MAX
    ensures Canonical(Digits(v)) && Denotes(Digits(v)) == Magnitude(v) && |Digits(v)| <= 19 <==> v != INT64_MIN
  {
    if v != INT64_MIN {
      NineteenDigits(Magnitude(v));
      if Magnitude(v) > 0 {
        DecimalMeaning(Magnitude(v));
      } else {
        assert Denotes([0]) == 10 * Denotes([]) + 0;
      }
    }
  }

  class DigitIterState {
    const digits: array<int>
    var count: nat
    var index: nat

    ghost predicate Valid()
      reads this
    {
      digits.Length == 20 && index <= count <= 20
    }

    /** What is still to come. */
    ghost function Rest(): seq<int>
      reads this, digits
      requires Valid()
    {
      digits[index..count]
    }

    /** `split_digits`: the value's digits from the last to the first, then turned round in place. */
    constructor (val: int)
      requires INT64_MIN <= val <= INT64_MAX
      ensures Valid() && fresh(digits) && index == 0
      ensures Rest() == Digits(val)
      ensures val != INT64_MIN ==> count <= 19
    {
      digits := new int[20](_ => 0);
      count, index := 0, 0;
      new;
      var absVal := if val < 0 then Negate(val) else val;
      if absVal == 0 {
        digits[0] := 0;
        count := 1;
      } else {
        ghost var whole: nat := if val == INT64_MIN then 0 else Magnitude(val);
        NineteenDigits(whole);
        while absVal > 0 && count < 20
          invariant 0 <= count <= 20 && index == 0
          invariant absVal >= 0 || (absVal == INT64_MIN && whole == 0 && count == 0)
          invariant absVal >= 0 ==> Decimal(whole) == Decimal(absVal) + Reversed(digits[..count])
          modifies this, digits
          decreases absVal
        {
          ghost var before := digits[..count];
          digits[count] := absVal % 10;
          count := count + 1;
          assert digits[..count] == before + [absVal % 10];
          assert Reversed(before + [absVal % 10]) == [absVal % 10] + Reversed(before);
          absVal := absVal / 10;
        }
        assert absVal <= 0; // never for want of a slot
        ReverseInPlace();
      }
    }

    method ReverseInPlace()
      requires Valid()
      modifies digits
      ensures digits[..count] == Reversed(old(digits[..count]))
    {
      var i := 0;
      while i < count / 2
        invariant 0 <= i <= count / 2
        invariant forall k :: 0 <= k < i ==>
                    digits[k] == old(digits[count - 1 - k]) && digits[count - 1 - k] == old(digits[k])
        invariant forall k :: i <= k < count - i ==> digits[k] == old(digits[k])
      {
        var tmp := digits[i];
        digits[i] := digits[count - 1 - i];
        digits[count - 1 - i] := tmp;
        i := i + 1;
      }
    }

    /** `digit_next`, with None for NULL. */
    method Next() returns (d: Option<int>)
      requires Valid()
      modifies this`index
      ensures Valid()
      ensures if old(Rest()) == [] then d == None && index == old(index)
              else d == Some(old(Rest())[0]) && Rest() == old(Rest())[1..]
    {
      if index >= count {
        return None;
      }
      d := Some(digits[index]);
      index := index + 1;
    }

    /** Any number of calls: the digits in order, and NULL ever after. */
    method NextTimes(n: nat) returns (out: seq<Option<int>>)
      requires Valid()
      modifies this`index
      ensures Valid() && |out| == n
      ensures forall i :: 0 <= i < n ==> out[i] == if i < |old(Rest())| then Some(old(Rest())[i]) else None
    {
      out := [];
      ghost var rest := Rest();
      for i := 0 to n
        invariant Valid() && |out| == i
        invariant Rest() == if i <= |rest| then rest[i..] else []
        invariant forall j :: 0 <= j < i ==> out[j] == if j < |rest| then Some(rest[j]) else None
      {
        var d := Next();
        out := out + [d];
      }
    }
  }

  /** From value to hand-out: each digit of the magnitude once, most significant first, then nothing. */
  method SplitAndDrain(val: int, n: nat) returns (out: seq<Option<int>>)
    requires INT64_MIN < val <= INT64_MAX
    ensures |out| == n
    ensures exists ds: seq<int> ::
              && Canonical(ds) && Denotes(ds) == Magnitude(val) && |ds| <= 19
              && forall i :: 0 <= i < n ==> out[i] == if i < |ds| then Some(ds[i]) else None
  {
    var state := new DigitIterState(val);
    out := state.NextTimes(n);
    DigitsDenote(val);
  }
}
