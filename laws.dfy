/** Laws of the container's transitions, stated over the pure `Step`
    function and over fluent sequences of calls such as
    `c.chain(f).check(g).either(h, k)`, which `Run` folds from left to
    right. Each mutating method of `Chainable` ensures that its new state is
    `Step` of its old one, so these laws hold of the objects as well. */
module ChainableLaws {
  import opened Chainables

  /** The (value, path) pair at the end of a fluent sequence of calls. */
  function Run<T>(s: Variant<T>, ops: seq<Op<T>>): Variant<T>
    decreases |ops|
  {
    if ops == [] then s else Run(Step(s, ops[0]), ops[1..])
  }

  /** `n` calls of the same operation in a row. */
  function Repeat<T>(op: Op<T>, n: nat): seq<Op<T>> {
    if n == 0 then [] else Repeat(op, n - 1) + [op]
  }

  /** The payload-level composition `f(f(... f(s.value)))`, `n` times,
      adopting each result whole: the reference for `n` chained calls. */
  function Iterate<T>(f: Callback<T>, n: nat, s: Variant<T>): Variant<T> {
    if n == 0 then s else f(Iterate(f, n - 1, s).value)
  }

  /** `buildChainable` is the one transition that ignores the tag: it
      leaves `error` and `nothing` for whatever its callback returns. */
  lemma BuildEscapesHalt<T>(s: Variant<T>, fn: Callback<T>)
    requires Halts(s.path)
    ensures Run(s, [Op.Build(fn)]) == fn(s.value)
    ensures Run(s, [Op.Build(fn)]) != Run(s, [Op.Chain(fn)]) <==> fn(s.value) != s
  {
    assert [Op.Build(fn)][1..] == [];
    assert [Op.Chain(fn)][1..] == [];
  }

  /** A fluent sequence may be split anywhere: the second part continues
      from the state the first part left. */
  lemma {:induction false} RunConcat<T>(s: Variant<T>, xs: seq<Op<T>>, ys: seq<Op<T>>)
    ensures Run(s, xs + ys) == Run(Run(s, xs), ys)
    decreases |xs|
  {
    if xs == [] {
      assert xs + ys == ys;
    } else {
      assert (xs + ys)[0] == xs[0];
      assert (xs + ys)[1..] == xs[1..] + ys;
      RunConcat(Step(s, xs[0]), xs[1..], ys);
    }
  }

  /** No call of `buildChainable` among `ops`. */
  predicate NoBuild<T>(ops: seq<Op<T>>) {
    forall i | 0 <= i < |ops| :: !ops[i].Build?
  }

  /** `error` and `nothing` are absorbing: no sequence of `chain`, `check`,
      `either`, `isLeft` and `isRight` calls changes a container that holds
      either tag. `chain` and `check` short-circuit on them, and `either`,
      `isLeft` and `isRight` act only on `left` and `right`. In particular
      the result does not depend on any callback in `ops`. */
  lemma {:induction false} HaltedAbsorbs<T>(s: Variant<T>, ops: seq<Op<T>>)
    requires Halts(s.path)
    requires NoBuild(ops)
    ensures Run(s, ops) == s
    decreases |ops|
  {
    if ops != [] {
      assert Step(s, ops[0]) == s;
      assert NoBuild(ops[1..]) by {
        forall i | 0 <= i < |ops| - 1 ensures !ops[1..][i].Build? {
          assert ops[1..][i] == ops[i + 1];
        }
      }
      HaltedAbsorbs(s, ops[1..]);
    }
  }

  /** Once a prefix of a fluent sequence reaches `error` or `nothing`, the
      rest of the sequence leaves the state as the prefix left it. */
  lemma {:induction false} HaltIsFinal<T>(s: Variant<T>, xs: seq<Op<T>>, ys: seq<Op<T>>)
    requires Halts(Run(s, xs).path)
    requires NoBuild(ys)
    ensures Run(s, xs + ys) == Run(s, xs)
  {
    RunConcat(s, xs, ys);
    HaltedAbsorbs(Run(s, xs), ys);
  }

  /** A state that is not `error` or `nothing` at the end of a fluent
      sequence was not `error` or `nothing` after any prefix of it: no
      transition but `buildChainable` leaves a short-circuiting tag. */
  lemma {:induction false} ContinuingHadNoHalt<T>(s: Variant<T>, xs: seq<Op<T>>, ys: seq<Op<T>>)
    requires NoBuild(ys)
    requires !Halts(Run(s, xs + ys).path)
    ensures !Halts(Run(s, xs).path)
  {
    if Halts(Run(s, xs).path) {
      HaltIsFinal(s, xs, ys);
      assert false;
    }
  }

  /** `n` chained calls of `f` from a continuing tag compose `f` `n`
      times, provided `f` never returns `error` or `nothing`. */
  lemma {:induction false} ChainsIterate<T>(f: Callback<T>, n: nat, s: Variant<T>)
    requires !Halts(s.path)
    requires forall x :: !Halts(f(x).path)
    ensures Run(s, Repeat(Op.Chain(f), n)) == Iterate(f, n, s)
    ensures !Halts(Iterate(f, n, s).path)
  {
    if n > 0 {
      var before := Repeat(Op.Chain(f), n - 1);
      ChainsIterate(f, n - 1, s);
      RunConcat(s, before, [Op.Chain(f)]);
      var mid := Run(s, before);
      assert Run(mid, [Op.Chain(f)]) == Run(Step(mid, Op.Chain(f)), []);
    }
  }

  /** Chaining is associative, as a bind: two chained calls equal one call
      whose callback chains the second onto the first's result. */
  lemma ChainAssociates<T>(s: Variant<T>, f: Callback<T>, g: Callback<T>)
    ensures Run(s, [Op.Chain(f), Op.Chain(g)])
         == Step(s, Op.Chain((x: Js<T>) => Step(f(x), Op.Chain(g))))
  {
    var both := [Op.Chain(f), Op.Chain(g)];
    assert both[1..] == [Op.Chain(g)];
    var mid := Step(s, Op.Chain(f));
    assert Run(s, both) == Run(mid, [Op.Chain(g)]);
    assert Run(mid, [Op.Chain(g)]) == Run(Step(mid, Op.Chain(g)), []);
  }

  /** `check` is `chain` with a callback that answers `true` by returning
      the current container. */
  lemma CheckIsChain<T>(s: Variant<T>, test: Js<T> -> Verdict<T>)
    ensures Step(s, Op.Check(test))
         == Step(s, Op.Chain((x: Js<T>) => Settle(test(x), Variant(x, s.path))))
  {
  }

  /** `either(l, r)` acts as `isLeft(l)` on every tag but `right`, and as
      `isRight(r)` on every tag but `left`. */
  lemma EitherIsOneBranch<T>(s: Variant<T>, onLeft: Callback<T>, onRight: Callback<T>)
    ensures s.path != Right ==> Step(s, Op.Either(onLeft, onRight)) == Step(s, Op.IsLeft(onLeft))
    ensures s.path != Left ==> Step(s, Op.Either(onLeft, onRight)) == Step(s, Op.IsRight(onRight))
  {
  }

  /** Exactly one accessor answers non-null when the payload is not
      itself `null`: the tags form a closed sum, one of which is active at a
      time. A `null` payload makes the four payload accessors answer `null`. */
  lemma ExactlyOneAccessor<T>(c: Chainable<T>)
    ensures !c.value.Null? ==>
              ((if c.GetOk().Null? then 0 else 1) + (if c.GetLeft().Null? then 0 else 1)
               + (if c.GetRight().Null? then 0 else 1) + (if c.GetError().Null? then 0 else 1)
               + (if c.GetNothing().Null? then 0 else 1) == 1)
    ensures c.value.Null? ==>
              c.GetOk().Null? && c.GetLeft().Null? && c.GetRight().Null? && c.GetError().Null?
              && (c.GetNothing().Null? <==> c.path != Nothing)
  {
  }
}
