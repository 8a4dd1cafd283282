/** JavaScript's `&`, `|`, `<<` and `>>` on numbers from 0 to 2^31 - 1, digit by binary digit. */
module Bits {
  function And(x: nat, y: nat): (r: nat)
    ensures r <= x && r <= y
  {
    if x == 0 || y == 0 then 0 else (if x % 2 == 1 && y % 2 == 1 then 1 else 0) + 2 * And(x / 2, y / 2)
  }

  function Or(x: nat, y: nat): (r: nat)
    ensures r <= x + y
    decreases x + y
  {
    if x == 0 then y else if y == 0 then x
    else (if x % 2 == 1 || y % 2 == 1 then 1 else 0) + 2 * Or(x / 2, y / 2)
  }

  function Shl(x: nat, k: nat): nat { if k == 0 then x else 2 * Shl(x, k - 1) }

  function Shr(x: nat, k: nat): nat { if k == 0 then x else Shr(x / 2, k - 1) }

  /** k ones in a row. */
  function Ones(k: nat): nat { if k == 0 then 0 else 1 + 2 * Ones(k - 1) }

  /** The low k digits. */
  function Low(x: nat, k: nat): nat { if k == 0 then 0 else x % 2 + 2 * Low(x / 2, k - 1) }

  /** A mask of low ones keeps the low digits. */
  lemma {:induction false} AndOnes(x: nat, k: nat)
    ensures And(x, Ones(k)) == Low(x, k)
  {
    if k > 0 {
      AndOnes(x / 2, k - 1);
      assert Ones(k) % 2 == 1 && Ones(k) / 2 == Ones(k - 1);
      if x == 0 {
        assert And(0, Ones(k - 1)) == 0;
      }
    }
  }

  /** A mask with k low zeros looks at the digits from k up. */
  lemma {:induction false} AndShifted(x: nat, mask: nat, k: nat)
    ensures And(x, Shl(mask, k)) == Shl(And(Shr(x, k), mask), k)
  {
    if k > 0 {
      AndShifted(x / 2, mask, k - 1);
      var y := Shl(mask, k - 1);
      assert (2 * y) % 2 == 0 && (2 * y) / 2 == y;
      assert And(x, 2 * y) == 2 * And(x / 2, y);
    }
  }

  /** Digits that do not overlap add up. */
  lemma {:induction false} OrDisjoint(high: nat, low: nat, k: nat)
    requires low <= Ones(k)
    ensures Or(Shl(high, k), low) == Shl(high, k) + low == Or(low, Shl(high, k))
  {
    if k > 0 {
      var y := Shl(high, k - 1);
      OrDisjoint(high, low / 2, k - 1);
      assert (2 * y) % 2 == 0 && (2 * y) / 2 == y;
    }
  }

  /** A mask of low ones takes the tag off a tagged value. */
  lemma {:induction false} LowOfTagged(tag: nat, low: nat, k: nat)
    requires low <= Ones(k)
    ensures Low(Shl(tag, k) + low, k) == low
  {
    if k > 0 {
      var y := Shl(tag, k - 1);
      LowOfTagged(tag, low / 2, k - 1);
      assert (2 * y + low) / 2 == y + low / 2 && (2 * y + low) % 2 == low % 2;
    }
  }

  lemma MaskOff(tag: nat, low: nat, k: nat)
    requires low <= Ones(k)
    ensures And(Shl(tag, k) + low, Ones(k)) == low
  {
    AndOnes(Shl(tag, k) + low, k);
    LowOfTagged(tag, low, k);
  }

  // The shifts and masks the codec uses, in plain arithmetic.

  lemma Ones4(k: nat)
    requires k >= 4
    ensures Ones(k) == 15 + 16 * Ones(k - 4)
  {
    assert Ones(k - 2) == 3 + 4 * Ones(k - 4);
  }

  lemma Shl4(x: nat, k: nat)
    requires k >= 4
    ensures Shl(x, k) == 16 * Shl(x, k - 4)
  {
    assert Shl(x, k - 2) == 4 * Shl(x, k - 4);
  }

  lemma Shr4(x: nat, k: nat)
    requires k >= 4
    ensures Shr(x, k) == Shr(x / 16, k - 4)
  {
    assert Shr(x, k) == Shr(x / 4, k - 2);
    assert x / 4 / 4 == x / 16;
  }

  lemma OnesTable()
    ensures Ones(1) == 0x01 && Ones(2) == 0x03 && Ones(3) == 0x07 && Ones(4) == 0x0f && Ones(5) == 0x1f
    ensures Ones(6) == 0x3f && Ones(7) == 0x7f && Ones(8) == 0xff && Ones(16) == 0xffff && Ones(24) == 0xffffff
  {
    Ones4(4);
    Ones4(8);
    Ones4(12);
    Ones4(16);
    Ones4(20);
    Ones4(24);
    assert Ones(5) == 1 + 2 * Ones(4);
    assert Ones(6) == 1 + 2 * Ones(5);
    assert Ones(7) == 1 + 2 * Ones(6);
  }

  lemma ShlTable(x: nat)
    ensures Shl(x, 5) == 0x20 * x && Shl(x, 6) == 0x40 * x && Shl(x, 7) == 0x80 * x
    ensures Shl(x, 4) == 0x10 * x && Shl(x, 8) == 0x100 * x && Shl(x, 16) == 0x10000 * x && Shl(x, 24) == 0x1000000 * x
  {
    Shl4(x, 4);
    Shl4(x, 8);
    Shl4(x, 12);
    Shl4(x, 16);
    Shl4(x, 20);
    Shl4(x, 24);
    assert Shl(x, 5) == 2 * Shl(x, 4);
    assert Shl(x, 6) == 2 * Shl(x, 5);
    assert Shl(x, 7) == 2 * Shl(x, 6);
  }

  lemma ShrTable(x: nat)
    ensures Shr(x, 4) == x / 0x10 && Shr(x, 5) == x / 0x20 && Shr(x, 6) == x / 0x40 && Shr(x, 7) == x / 0x80
    ensures Shr(x, 8) == x / 0x100 && Shr(x, 16) == x / 0x10000 && Shr(x, 24) == x / 0x1000000
  {
    ShrSmall(x);
    Shr8(x, 8);
    Shr8(x, 16);
    Shr8(x / 0x100, 8);
    Shr8(x, 24);
    Shr8(x / 0x100, 16);
    Shr8(x / 0x10000, 8);
  }

  lemma ShrSmall(x: nat)
    ensures Shr(x, 4) == x / 0x10 && Shr(x, 5) == x / 0x20 && Shr(x, 6) == x / 0x40 && Shr(x, 7) == x / 0x80
  {
    Shr4(x, 4);
    Shr4(x, 5);
    Shr4(x, 6);
    Shr4(x, 7);
    var y := x / 16;
    assert Shr(y, 1) == y / 2;
    assert Shr(y, 2) == Shr(y / 2, 1) == y / 2 / 2;
    assert Shr(y, 3) == Shr(y / 2, 2) == y / 2 / 2 / 2;
  }

  lemma Shr8(x: nat, k: nat)
    requires k >= 8
    ensures Shr(x, k) == Shr(x / 0x100, k - 8)
  {
    Shr4(x, k);
    Shr4(x / 16, k - 4);
    assert x / 16 / 16 == x / 0x100;
  }

  /** The low digits are what the high ones leave over. */
  lemma {:induction false} LowIsRest(x: nat, k: nat)
    ensures Low(x, k) + Shl(Shr(x, k), k) == x && Low(x, k) <= Ones(k)
  {
    if k > 0 {
      LowIsRest(x / 2, k - 1);
    }
  }

  lemma LowTable(x: nat)
    ensures Low(x, 4) == x % 0x10 && Low(x, 5) == x % 0x20 && Low(x, 6) == x % 0x40 && Low(x, 8) == x % 0x100
  {
    ShrTable(x);
    OnesTable();
    LowIsRest(x, 4);
    ShlTable(x / 0x10);
    LowIsRest(x, 5);
    ShlTable(x / 0x20);
    LowIsRest(x, 6);
    ShlTable(x / 0x40);
    LowIsRest(x, 8);
    ShlTable(x / 0x100);
  }

  /** A number of at most k digits is its own low digits. */
  lemma {:induction false} LowOfSmall(x: nat, k: nat)
    requires x <= Ones(k)
    ensures Low(x, k) == x
  {
    if k > 0 {
      LowOfSmall(x / 2, k - 1);
    }
  }
}
