/** Runs of a machine given by a step function: what the state machines of the other modules share. */
module Runs {

  function Run<S, A>(step: (S, A) -> S, s: S, acts: seq<A>): S {
    if acts == [] then s else step(Run(step, s, acts[..|acts| - 1]), acts[|acts| - 1])
  }

  lemma RunLast<S, A>(step: (S, A) -> S, s: S, acts: seq<A>, act: A)
    ensures Run(step, s, acts + [act]) == step(Run(step, s, acts), act)
  {
  }

  /** A run may be cut in two anywhere. */
  lemma {:induction false} RunAppend<S, A>(step: (S, A) -> S, s: S, xs: seq<A>, ys: seq<A>)
    ensures Run(step, s, xs + ys) == Run(step, Run(step, s, xs), ys)
  {
    if ys == [] {
      assert xs + ys == xs;
    } else {
      var init := ys[..|ys| - 1];
      RunAppend(step, s, xs, init);
      assert xs + ys == (xs + init) + [ys[|ys| - 1]];
      RunLast(step, s, xs + init, ys[|ys| - 1]);
    }
  }

  lemma RunFirst<S, A>(step: (S, A) -> S, s: S, act: A, rest: seq<A>)
    ensures Run(step, s, [act] + rest) == Run(step, step(s, act), rest)
  {
    RunAppend(step, s, [act], rest);
    assert [act][..0] == [];
  }

  lemma RunThree<S, A>(step: (S, A) -> S, s: S, x: A, y: A, z: A)
    ensures Run(step, s, [x, y, z]) == step(step(step(s, x), y), z)
  {
    assert [x, y, z] == [x] + [y, z] && [y, z] == [y] + [z] && [z] == [z] + [];
    RunFirst(step, s, x, [y, z]);
    RunFirst(step, step(s, x), y, [z]);
    RunFirst(step, step(step(s, x), y), z, []);
  }

  lemma RunSix<S, A>(step: (S, A) -> S, s: S, xs: seq<A>, ys: seq<A>)
    requires |xs| == 3 && |ys| == 3
    ensures Run(step, s, xs + ys) == step(step(step(step(step(step(s, xs[0]), xs[1]), xs[2]), ys[0]), ys[1]), ys[2])
  {
    RunAppend(step, s, xs, ys);
    assert xs == [xs[0], xs[1], xs[2]] && ys == [ys[0], ys[1], ys[2]];
    RunThree(step, s, xs[0], xs[1], xs[2]);
    RunThree(step, Run(step, s, xs), ys[0], ys[1], ys[2]);
  }

  lemma RunTen<S, A>(step: (S, A) -> S, s: S, xs: seq<A>, ys: seq<A>, zs: seq<A>, act: A)
    requires |xs| == 3 && |ys| == 3 && |zs| == 3
    ensures Run(step, s, xs + ys + zs + [act])
         == step(step(step(step(Run(step, s, xs + ys), zs[0]), zs[1]), zs[2]), act)
    ensures Run(step, s, xs + ys) == step(step(step(step(step(step(s, xs[0]), xs[1]), xs[2]), ys[0]), ys[1]), ys[2])
  {
    RunSix(step, s, xs, ys);
    RunAppend(step, s, xs + ys, zs);
    assert zs == [zs[0], zs[1], zs[2]];
    RunThree(step, Run(step, s, xs + ys), zs[0], zs[1], zs[2]);
    RunLast(step, s, xs + ys + zs, act);
  }

  /** What every step keeps, every run keeps. */
  lemma {:induction false} RunKeeps<S(!new), A(!new)>(step: (S, A) -> S, inv: S -> bool, s: S, acts: seq<A>)
    requires inv(s)
    requires forall t, act :: inv(t) ==> inv(step(t, act))
    ensures inv(Run(step, s, acts))
  {
    if acts != [] {
      RunKeeps(step, inv, s, acts[..|acts| - 1]);
    }
  }

  /** `p` holds of every beginning of `acts` that is longer than `i`. */
  ghost predicate EverSince<A(!new)>(p: seq<A> -> bool, acts: seq<A>, i: nat) {
    forall j | i < j <= |acts| :: p(acts[..j])
  }

  lemma EverSinceExtends<A(!new)>(p: seq<A> -> bool, init: seq<A>, act: A, i: nat)
    requires i <= |init|
    ensures EverSince(p, init + [act], i) <==> EverSince(p, init, i) && p(init + [act])
  {
    var acts := init + [act];
    assert acts[..|acts|] == acts;
    assert forall j | i < j <= |init| :: acts[..j] == init[..j];
    if EverSince(p, acts, i) {
      forall j | i < j <= |init| ensures p(init[..j]) {
        assert p(acts[..j]);
      }
      assert p(acts[..|acts|]);
    }
  }

  /** The `i`-th action was one of which `q` holds, and `p` has held ever since. */
  ghost predicate HeldSince<A(!new)>(q: (seq<A>, A) -> bool, p: seq<A> -> bool, acts: seq<A>, i: nat) {
    i < |acts| && q(acts[..i], acts[i]) && EverSince(p, acts, i)
  }

  lemma HeldSinceExtends<A(!new)>(q: (seq<A>, A) -> bool, p: seq<A> -> bool, init: seq<A>, act: A)
    requires q(init, act) ==> p(init + [act])
    ensures (exists i: nat :: HeldSince(q, p, init + [act], i))
       <==> ((exists i: nat :: HeldSince(q, p, init, i)) || q(init, act)) && p(init + [act])
  {
    var acts := init + [act];
    assert acts[..|init|] == init && acts[..|acts|] == acts;
    forall i: nat | i < |init| ensures HeldSince(q, p, acts, i) <==> HeldSince(q, p, init, i) && p(acts) {
      assert acts[..i] == init[..i];
      EverSinceExtends(p, init, act, i);
    }
    assert HeldSince(q, p, acts, |init|) <==> q(init, act) && p(acts);
    if i: nat :| HeldSince(q, p, init, i) {
      assert p(acts) ==> HeldSince(q, p, acts, i);
    }
  }

  lemma HeldSinceHolds<A(!new)>(q: (seq<A>, A) -> bool, p: seq<A> -> bool, acts: seq<A>)
    requires exists i: nat :: HeldSince(q, p, acts, i)
    ensures p(acts)
  {
    assert acts[..|acts|] == acts;
  }
}
