/** Folding a step function over the complete stripes of an input, for the streaming hashes. */
module StripeFold {
  type byte = bv8

  /** The lanes after every complete stripe of w bytes in s; bytes after the last one do not count. */
  function Fold<L>(w: nat, step: (L, seq<byte>) -> L, v: L, s: seq<byte>): L
    requires w > 0
  {
    if |s| < w then v else Fold(w, step, step(v, s[..w]), s[w..])
  }

  /** One more stripe, after n complete ones. */
  lemma {:induction false} FoldSnoc<L>(w: nat, step: (L, seq<byte>) -> L, v: L, a: seq<byte>, n: nat, c: seq<byte>)
    requires w > 0 && |a| == n * w && |c| == w
    ensures Fold(w, step, v, a + c) == step(Fold(w, step, v, a), c)
    decreases n
  {
    if n == 0 {
      assert a == [] && a + c == c && c[..w] == c && c[w..] == [];
    } else {
      assert n * w == (n - 1) * w + w && (n - 1) * w >= 0;
      assert (a + c)[..w] == a[..w] && (a + c)[w..] == a[w..] + c;
      FoldSnoc(w, step, step(v, a[..w]), a[w..], n - 1, c);
    }
  }

  /** Less than a stripe at the end changes nothing. */
  lemma {:induction false} FoldTail<L>(w: nat, step: (L, seq<byte>) -> L, v: L, a: seq<byte>, n: nat, r: seq<byte>)
    requires w > 0 && |a| == n * w && |r| < w
    ensures Fold(w, step, v, a + r) == Fold(w, step, v, a)
    decreases n
  {
    if n == 0 {
      assert a == [] && a + r == r;
    } else {
      assert n * w == (n - 1) * w + w && (n - 1) * w >= 0;
      assert (a + r)[..w] == a[..w] && (a + r)[w..] == a[w..] + r;
      FoldTail(w, step, step(v, a[..w]), a[w..], n - 1, r);
    }
  }
}
