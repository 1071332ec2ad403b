/** The splitmix64 finalizer that stands between visitor ids and the sketches
    (`mix` in internal/sketch/hll.go), on 64-bit words with wrap-around. */
module Hashing {

  type Word = bv64

  // A xor-shift is undone by repeating it at the multiples of its distance,
  // an odd factor by its inverse modulo 2^64.

  function Shift30(x: Word): Word { x ^ (x >> 30) }
  function Shift27(x: Word): Word { x ^ (x >> 27) }
  function Shift31(x: Word): Word { x ^ (x >> 31) }
  function Times1(x: Word): Word { x * 0xbf58476d1ce4e5b9 }
  function Times2(x: Word): Word { x * 0x94d049bb133111eb }

  function Unshift30(y: Word): Word { y ^ (y >> 30) ^ (y >> 60) }
  function Unshift27(y: Word): Word { y ^ (y >> 27) ^ (y >> 54) }
  function Unshift31(y: Word): Word { y ^ (y >> 31) ^ (y >> 62) }
  function Untimes1(y: Word): Word { y * 0x96de1b173f119089 }
  function Untimes2(y: Word): Word { y * 0x319642b2d24d8ec3 }

  function Mix(x: Word): Word {
    Shift31(Times2(Shift27(Times1(Shift30(x)))))
  }

  function Unmix(y: Word): Word {
    Unshift30(Untimes1(Unshift27(Untimes2(Unshift31(y)))))
  }

  lemma ShiftsUndo(x: Word)
    ensures Unshift30(Shift30(x)) == x && Shift30(Unshift30(x)) == x
    ensures Unshift27(Shift27(x)) == x && Shift27(Unshift27(x)) == x
    ensures Unshift31(Shift31(x)) == x && Shift31(Unshift31(x)) == x
  {
    assert Unshift30(x ^ (x >> 30)) == x;
    assert Shift30(x ^ (x >> 30) ^ (x >> 60)) == x;
    assert Unshift27(x ^ (x >> 27)) == x;
    assert Shift27(x ^ (x >> 27) ^ (x >> 54)) == x;
    assert Unshift31(x ^ (x >> 31)) == x;
    assert Shift31(x ^ (x >> 31) ^ (x >> 62)) == x;
  }

  lemma FactorsUndo(x: Word)
    ensures Untimes1(Times1(x)) == x && Times1(Untimes1(x)) == x
    ensures Untimes2(Times2(x)) == x && Times2(Untimes2(x)) == x
  {
    assert Untimes1(x * 0xbf58476d1ce4e5b9) == x;
    assert Times1(x * 0x96de1b173f119089) == x;
    assert Untimes2(x * 0x94d049bb133111eb) == x;
    assert Times2(x * 0x319642b2d24d8ec3) == x;
  }

  lemma UnmixMix(x: Word)
    ensures Unmix(Mix(x)) == x
  {
    var a := Shift30(x);
    var b := Times1(a);
    var c := Shift27(b);
    var d := Times2(c);
    ShiftsUndo(d);
    FactorsUndo(c);
    ShiftsUndo(b);
    FactorsUndo(a);
    ShiftsUndo(x);
  }

  lemma MixUnmix(y: Word)
    ensures Mix(Unmix(y)) == y
  {
    var d := Unshift31(y);
    var c := Untimes2(d);
    var b := Unshift27(c);
    var a := Untimes1(b);
    ShiftsUndo(a);
    FactorsUndo(b);
    ShiftsUndo(c);
    FactorsUndo(d);
    ShiftsUndo(y);
  }

  /** Known values: the mix of one, and of the increment that the splitmix64
      generator starts from. */
  lemma KnownMixes()
    ensures Mix(0) == 0
    ensures Mix(1) == 0x5692161d100b05e5
    ensures Mix(0x9e3779b97f4a7c15) == 0xe220a8397b1dcdaf
  {
  }

  function Image<T, U>(s: set<T>, f: T -> U): set<U> {
    set x | x in s :: f(x)
  }

  lemma {:induction false} OneToOneImageSize<T, U>(s: set<T>, f: T -> U, g: U -> T)
    requires forall x :: x in s ==> g(f(x)) == x
    ensures |Image(s, f)| == |s|
  {
    if s == {} {
      assert Image(s, f) == {};
    } else {
      var x :| x in s;
      var rest := s - {x};
      OneToOneImageSize(rest, f, g);
      assert f(x) !in Image(rest, f);
      assert Image(s, f) == Image(rest, f) + {f(x)};
    }
  }

  /** Distinct ids give distinct hashes, so counting hashes counts ids. */
  lemma HashesCountIds(ids: set<Word>)
    ensures |Image(ids, Mix)| == |ids|
  {
    forall x | x in ids
      ensures Unmix(Mix(x)) == x
    {
      UnmixMix(x);
    }
    OneToOneImageSize(ids, Mix, Unmix);
  }
}
