/** The scenarios of src/chainable.spec.ts, verified against the class's
    contracts alone. The callbacks add one to an integer payload and
    re-tag it, like the tests' `logR`, `logL`, `logO`, `logE` and `logN`;
    the matchers render `"<tag> ${x.value}"` as the tests' matchers do. */
module ChainableScenarios {
  import opened Chainables

  /** `x + 1` on a payload (`null + 1` is 1). The scenarios never reach
      `undefined`, for which JavaScript would give `NaN`; here it stays
      `undefined`. */
  function AddOne(x: Js<int>): Js<int> {
    match x
    case Defined(n) => Defined(n + 1)
    case Null => Defined(1)
    case Undefined => Undefined
  }

  function LogR(x: Js<int>): Variant<int> { Variant(AddOne(x), Right) }
  function LogL(x: Js<int>): Variant<int> { Variant(AddOne(x), Left) }
  function LogO(x: Js<int>): Variant<int> { Variant(AddOne(x), Ok) }
  function LogE(x: Js<int>): Variant<int> { Variant(AddOne(x), Error) }
  function LogN(x: Js<int>): Variant<int> { Variant(Undefined, Nothing) }

  function CheckTrue(x: Js<int>): Verdict<int> { Pass }
  function CheckError(x: Js<int>): Verdict<int> { Replace(Variant(AddOne(x), Error)) }

  /** Decimal digits of a natural number. */
  function Digits(n: nat): string
    decreases n
  {
    if n < 10 then ["0123456789"[n]] else Digits(n / 10) + ["0123456789"[n % 10]]
  }

  /** What a template literal makes of a payload. */
  function Show(x: Js<int>): string {
    match x
    case Undefined => "undefined"
    case Null => "null"
    case Defined(n) => if n < 0 then "-" + Digits(-n) else Digits(n)
  }

  function Render(tag: string): Variant<int> -> string {
    (x: Variant<int>) => tag + " " + Show(x.value)
  }

  /** `{ left: ..., right: ... }` of the tests. */
  function LeftRightMatcher(): Matcher<int, string> {
    Matcher(Some(Render("left")), Some(Render("right")), None, None, None)
  }

  /** `{ ok: ..., error: ... }` of the tests. */
  function OkErrorMatcher(): Matcher<int, string> {
    Matcher(None, None, Some(Render("ok")), Some(Render("error")), None)
  }

  /** `{ ok: ..., nothing: () => 'nothing' }` of the tests. */
  function OkNothingMatcher(): Matcher<int, string> {
    Matcher(None, None, Some(Render("ok")), None, Some((x: Variant<int>) => "nothing"))
  }

  /** `logR(1).chain(logR).chain(logR).value` is 4. */
  method BasicChaining() returns (v: Js<int>)
    ensures v == Defined(4)
  {
    var c := Chainable<int>.Right(AddOne(Defined(1)));
    c := c.Chain(LogR);
    c := c.Chain(LogR);
    v := c.value;
  }

  /** `logR(1)` matches as "right 2", `logL(1)` as "left 2" and
      `logR(1).chain(logL)` as "left 3". */
  method MatchLeftAndRight() returns (r1: string, r2: string, r3: string)
    ensures r1 == "right 2" && r2 == "left 2" && r3 == "left 3"
  {
    var c := Chainable<int>.Right(AddOne(Defined(1)));
    r1 := c.Match(LeftRightMatcher());
    var d := Chainable<int>.Left(AddOne(Defined(1)));
    r2 := d.Match(LeftRightMatcher());
    c := c.Chain(LogL);
    r3 := c.Match(LeftRightMatcher());
  }

  /** `logO(1).chain(logE).chain(logO)` matches as "error 3". */
  method SkipsToEndOnError() returns (r: string)
    ensures r == "error 3"
  {
    var c := Chainable<int>.Ok(AddOne(Defined(1)));
    c := c.Chain(LogE);
    c := c.Chain(LogO);
    r := c.Match(OkErrorMatcher());
  }

  /** `logN(1)` matches as "nothing", and so does
      `logO(1).chain(logN).chain(logO)`. */
  method SkipsToEndOnNothing() returns (r1: string, r2: string)
    ensures r1 == "nothing" && r2 == "nothing"
  {
    var n := Chainable<int>.Nothing();
    r1 := n.Match(OkNothingMatcher());
    var c := Chainable<int>.Ok(AddOne(Defined(1)));
    c := c.Chain(LogN);
    c := c.Chain(LogO);
    r2 := c.Match(OkNothingMatcher());
  }

  /** `logO(1).check(checkTrue)` stays "ok 2"; three more `chain(logO)`
      make it "ok 5". */
  method CheckPasses() returns (r1: string, r2: string)
    ensures r1 == "ok 2" && r2 == "ok 5"
  {
    var c := Chainable<int>.Ok(AddOne(Defined(1)));
    c := c.Check(CheckTrue);
    r1 := c.Match(OkErrorMatcher());
    c := c.Chain(LogO);
    c := c.Chain(LogO);
    c := c.Chain(LogO);
    r2 := c.Match(OkErrorMatcher());
  }

  /** `logO(1).check(checkError)` becomes "error 3", and three more
      `chain(logO)` leave it "error 3". */
  method CheckBreaks() returns (r1: string, r2: string)
    ensures r1 == "error 3" && r2 == "error 3"
  {
    var c := Chainable<int>.Ok(AddOne(Defined(1)));
    c := c.Check(CheckError);
    r1 := c.Match(OkErrorMatcher());
    c := c.Chain(LogO);
    c := c.Chain(LogO);
    c := c.Chain(LogO);
    r2 := c.Match(OkErrorMatcher());
  }

  /** `either` follows the tag: `left(1)` takes the left callback, `right(1)`
      the right one, and `ok(1)` neither; `error(1)` ignores `isLeft` and
      `isRight` as well. The projections and accessors read the results. */
  method EitherBranches() returns (l: Reply<string>, r: Reply<string>, o: Js<int>, e: Js<int>)
    ensures l == Returned("right 2") && r == Returned("left 2") && o == Defined(1) && e == Defined(1)
  {
    var a := Chainable<int>.Left(Defined(1));
    a := a.Either(LogR, LogL);
    var b := Chainable<int>.Right(Defined(1));
    b := b.Either(LogR, LogL);
    var c := Chainable<int>.Ok(Defined(1));
    c := c.Either(LogR, LogL);
    var d := Chainable<int>.Error(Defined(1));
    d := d.IsLeft(LogO);
    d := d.IsRight(LogO);
    var onLeft := (x: Js<int>) => "left " + Show(x);
    var onRight := (x: Js<int>) => "right " + Show(x);
    assert onRight(Defined(2)) == "right 2" && onLeft(Defined(2)) == "left 2";
    l := a.MatchEither(onLeft, onRight);
    r := b.MatchEither(onLeft, onRight);
    o := c.GetOk();
    e := d.GetError();
  }

  /** `result` and `just` on a `nothing` container give the string
      "nothing" unless `just` is given its own handler. */
  method ProjectNothing() returns (r: Reply<int>, j: Reply<int>, k: Reply<int>, g: Js<bool>)
    ensures r == Literal("nothing") && j == Literal("nothing") && k == Returned(7)
    ensures g == Defined(true)
  {
    var n := Chainable<int>.Nothing();
    r := n.Result((x: Js<int>) => 1, (x: Js<int>) => 2);
    j := n.Just((x: Js<int>) => 1, None);
    k := n.Just((x: Js<int>) => 1, Some(() => 7));
    g := n.GetNothing();
  }

  /** Each factory stores its payload under its own tag: the accessor of
      that tag gives the payload back and every other accessor gives
      `null`. */
  method AccessorsInvertFactories<T>(v: Js<T>) returns (own: seq<Js<T>>, others: bool, isNothing: Js<bool>)
    ensures own == [v, v, v, v]
    ensures others
    ensures isNothing == Defined(true)
  {
    var l := Chainable<T>.Left(v);
    var r := Chainable<T>.Right(v);
    var o := Chainable<T>.Ok(v);
    var e := Chainable<T>.Error(v);
    var n := Chainable<T>.Nothing();
    own := [l.GetLeft(), r.GetRight(), o.GetOk(), e.GetError()];
    others :=
      l.GetOk().Null? && l.GetRight().Null? && l.GetError().Null? && l.GetNothing().Null? &&
      r.GetOk().Null? && r.GetLeft().Null? && r.GetError().Null? && r.GetNothing().Null? &&
      o.GetLeft().Null? && o.GetRight().Null? && o.GetError().Null? && o.GetNothing().Null? &&
      e.GetOk().Null? && e.GetLeft().Null? && e.GetRight().Null? && e.GetNothing().Null? &&
      n.GetOk().Null? && n.GetLeft().Null? && n.GetRight().Null? && n.GetError().Null? &&
      n.value == Undefined;
    isNothing := n.GetNothing();
  }
}
