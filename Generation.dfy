// Sequence generation (Trainer.generateSequence): ten "edge" draws when the
// edges box is checked, six "corner" draws when the corners box is checked,
// then at most one more draw so that the length is odd exactly when the
// parity box is checked. Math.random() is an oracle: the i-th call made while
// generating one sequence returns random(i) / 2^53.

module Generation {
  import opened Pool

  /** Math.random() returns a multiple of 2^-53 in [0, 1); a roll is its numerator. */
  const RandomScale: nat := 0x20_0000_0000_0000
  type Roll = r: nat | r < RandomScale

  const EdgeCount: nat := 10
  const CornerCount: nat := 6

  /** The three check boxes read when a sequence is generated. */
  datatype Options = Options(edges: bool, corners: bool, parity: bool)

  /** Math.floor(Math.random() * n) for a roll r: always a valid index. */
  function DrawIndex(r: Roll, n: nat): (k: nat)
    requires n > 0
    ensures k < n
  {
    ScaledBelow(r, n);
    r * n / RandomScale
  }

  lemma ScaledBelow(r: nat, n: nat)
    requires r < RandomScale && n > 0
    ensures r * n / RandomScale < n
  {
    var gap: nat := RandomScale - r;
    assert RandomScale * n == r * n + gap * n;
    assert gap * n >= n;
    var q := r * n / RandomScale;
    assert RandomScale * q <= r * n;
  }

  /** The item one draw picks from the pool. */
  function Pick(data: seq<Stimulus>, r: Roll): (x: Stimulus)
    requires |data| > 0
    ensures x in data
  {
    data[DrawIndex(r, |data|)]
  }

  /** The first `count` draws, in the order they were pushed. */
  function Draws(data: seq<Stimulus>, random: nat -> Roll, count: nat): (s: seq<Stimulus>)
    requires |data| > 0
    ensures |s| == count
  {
    if count == 0 then [] else Draws(data, random, count - 1) + [Pick(data, random(count - 1))]
  }

  /** Length before the parity step: 10 per checked edges box, 6 per checked corners box. */
  function BaseLength(opts: Options): nat
  {
    (if opts.edges then EdgeCount else 0) + (if opts.corners then CornerCount else 0)
  }

  /** The parity step draws once more when the parity box disagrees with the current length. */
  predicate NeedsParityDraw(opts: Options)
  {
    var isOdd := BaseLength(opts) % 2 != 0;
    (opts.parity && !isOdd) || (!opts.parity && isOdd)
  }

  /** The sequence generateSequence stores for these boxes and this oracle. */
  function Generated(data: seq<Stimulus>, opts: Options, random: nat -> Roll): (s: seq<Stimulus>)
    requires |data| > 0
    ensures |s| == BaseLength(opts) + (if opts.parity then 1 else 0)
  {
    ParityDrawIffParityChecked(opts);
    Draws(data, random, BaseLength(opts) + (if NeedsParityDraw(opts) then 1 else 0))
  }

  /** Item i of the draws is exactly the item the i-th roll picks. */
  lemma {:induction false} DrawsAt(data: seq<Stimulus>, random: nat -> Roll, count: nat, i: nat)
    requires |data| > 0 && i < count
    ensures Draws(data, random, count)[i] == Pick(data, random(i))
  {
    if i < count - 1 {
      DrawsAt(data, random, count - 1, i);
    }
  }

  /** Drawing more never changes the items drawn before. */
  lemma {:induction false} DrawsPrefix(data: seq<Stimulus>, random: nat -> Roll, m: nat, n: nat)
    requires |data| > 0 && m <= n
    ensures Draws(data, random, n)[..m] == Draws(data, random, m)
  {
    if m < n {
      DrawsPrefix(data, random, m, n - 1);
      assert Draws(data, random, n)[..n - 1] == Draws(data, random, n - 1);
    }
  }

  /** Every generated item is an item of the pool. */
  lemma GeneratedInPool(data: seq<Stimulus>, opts: Options, random: nat -> Roll)
    requires |data| > 0
    ensures forall x :: x in Generated(data, opts, random) ==> x in data
  {
    var s := Generated(data, opts, random);
    forall x | x in s
      ensures x in data
    {
      var i :| 0 <= i < |s| && s[i] == x;
      DrawsAt(data, random, |s|, i);
    }
  }

  /** Both category counts are even, so the parity step draws exactly when the box is checked. */
  lemma ParityDrawIffParityChecked(opts: Options)
    ensures NeedsParityDraw(opts) <==> opts.parity
    ensures BaseLength(opts) % 2 == 0
  {
  }

  /** The length is 10*[edges] + 6*[corners] plus at most one draw, and it is odd iff parity is checked. */
  lemma GeneratedLength(data: seq<Stimulus>, opts: Options, random: nat -> Roll)
    requires |data| > 0
    ensures BaseLength(opts) <= |Generated(data, opts, random)| <= BaseLength(opts) + 1
    ensures |Generated(data, opts, random)| % 2 == 1 <==> opts.parity
    ensures |Generated(data, opts, random)| == 0 <==> !opts.edges && !opts.corners && !opts.parity
  {
    ParityDrawIffParityChecked(opts);
  }

  /** The parity draw, when there is one, is appended after the category draws, which it leaves alone. */
  lemma CategoryDrawsKept(data: seq<Stimulus>, opts: Options, random: nat -> Roll)
    requires |data| > 0
    ensures Generated(data, opts, random)[..BaseLength(opts)] == Draws(data, random, BaseLength(opts))
  {
    DrawsPrefix(data, random, BaseLength(opts), |Generated(data, opts, random)|);
  }

  /** All boxes checked: 16 category draws and one parity draw. */
  lemma FullSetWithParity(data: seq<Stimulus>, random: nat -> Roll)
    requires |data| > 0
    ensures |Generated(data, Options(true, true, true), random)| == 17
    ensures |Generated(data, Options(true, true, false), random)| == 16
  {
  }
}
