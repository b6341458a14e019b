/** The variant container of src/chainable.ts.

    A `Chainable` holds a payload (`value`) and a tag (`path`). The factories
    build one per tag; `buildChainable`, `chain`, `check`, `either`, `isLeft`
    and `isRight` overwrite both fields in place with those of a callback's
    result and return the same object; `match` and its projections and the
    `getX` accessors only read the two fields.

    The pure function `Step` is the specification of every in-place
    transition: each of the six mutating methods ensures that the new
    (value, path) pair is `Step` of the old pair. */
module Chainables {

  /** The five tags the source writes into `path`. */
  datatype Tag = Left | Right | Ok | Error | Nothing

  /** The tags on which `chain` and `check` short-circuit. */
  predicate Halts(t: Tag) {
    t == Error || t == Nothing
  }

  /** A JavaScript payload: `undefined`, `null`, or some other value, of
      type T. The accessors answer `null` for "no payload". */
  datatype Js<T> = Undefined | Null | Defined(v: T)

  /** `None` stands for a key that a matcher object does not have, and for
      an argument the caller omits. */
  datatype Option<T> = None | Some(value: T)

  /** The two fields of a container. A callback returns a container of
      which only these two fields are read, so a callback result is a
      `Variant` too. */
  datatype Variant<T> = Variant(value: Js<T>, path: Tag)

  /** What a `chain`, `either`, `isLeft` or `isRight` callback is: from the
      current payload to the container whose fields are adopted. */
  type Callback<!T> = Js<T> -> Variant<T>

  /** What a `check` callback returns: the literal `true` (`Pass`) or a
      container whose fields are adopted (`Replace`). */
  datatype Verdict<T> = Pass | Replace(next: Variant<T>)

  /** What `check` makes of a verdict about the container `keep`: `true`
      keeps the container, a container replaces it. */
  function Settle<T>(v: Verdict<T>, keep: Variant<T>): Variant<T> {
    match v
    case Pass => keep
    case Replace(next) => next
  }

  /** The in-place transitions, one per mutating method of the class.
      `Build` is `buildChainable`, which the other methods call and which
      adopts the callback's result on every tag. */
  datatype Op<!T> =
    | Build(fn: Callback<T>)
    | Chain(fn: Callback<T>)
    | Check(test: Js<T> -> Verdict<T>)
    | Either(onLeft: Callback<T>, onRight: Callback<T>)
    | IsLeft(fn: Callback<T>)
    | IsRight(fn: Callback<T>)

  /** The (value, path) pair after applying `op` to the pair `s`. Every
      transition either keeps both fields or adopts both fields of one
      callback result: no field is ever updated alone. */
  function Step<T>(s: Variant<T>, op: Op<T>): (r: Variant<T>)
    ensures r == s
         || (op.Chain? && r == op.fn(s.value))
         || (op.Check? && op.test(s.value).Replace? && r == op.test(s.value).next)
         || (op.Either? && (r == op.onLeft(s.value) || r == op.onRight(s.value)))
         || ((op.Build? || op.IsLeft? || op.IsRight?) && r == op.fn(s.value))
  {
    match op
    case Build(fn) =>
      fn(s.value)
    case Chain(fn) =>
      if Halts(s.path) then s else fn(s.value)
    case Check(test) =>
      if Halts(s.path) then s else Settle(test(s.value), s)
    case Either(onLeft, onRight) =>
      if s.path == Left then onLeft(s.value)
      else if s.path == Right then onRight(s.value)
      else s
    case IsLeft(fn) =>
      if s.path == Left then fn(s.value) else s
    case IsRight(fn) =>
      if s.path == Right then fn(s.value) else s
  }

  /** A matcher object: one optional handler per tag. A handler is given
      the container itself; here, its two fields. */
  datatype Matcher<!T, R> = Matcher(
    left: Option<Variant<T> -> R>,
    right: Option<Variant<T> -> R>,
    ok: Option<Variant<T> -> R>,
    error: Option<Variant<T> -> R>,
    nothing: Option<Variant<T> -> R>)
  {
    /** `matcher[t]`: the handler stored under the key named by `t`. */
    function For(t: Tag): Option<Variant<T> -> R> {
      match t
      case Left => left
      case Right => right
      case Ok => ok
      case Error => error
      case Nothing => nothing
    }
  }

  /** What `result`, `just` and `matchEither` return: the value of a user
      handler, or the string literal the source returns for `nothing`. */
  datatype Reply<R> = Returned(result: R) | Literal(text: string)

  class Chainable<T> {
    var value: Js<T>
    var path: Tag

    /** The two fields as one value. */
    function State(): Variant<T>
      reads this
    {
      Variant(value, path)
    }

    constructor (value: Js<T>, path: Tag)
      ensures this.value == value && this.path == path
    {
      this.value := value;
      this.path := path;
    }

    static method Of(value: Js<T>, path: Tag) returns (c: Chainable<T>)
      ensures fresh(c) && c.value == value && c.path == path
    {
      c := new Chainable(value, path);
    }

    static method Left(value: Js<T>) returns (c: Chainable<T>)
      ensures fresh(c) && c.value == value && c.path == Tag.Left
    {
      c := Of(value, Tag.Left);
    }

    static method Right(value: Js<T>) returns (c: Chainable<T>)
      ensures fresh(c) && c.value == value && c.path == Tag.Right
    {
      c := Of(value, Tag.Right);
    }

    static method Ok(value: Js<T>) returns (c: Chainable<T>)
      ensures fresh(c) && c.value == value && c.path == Tag.Ok
    {
      c := Of(value, Tag.Ok);
    }

    static method Error(value: Js<T>) returns (c: Chainable<T>)
      ensures fresh(c) && c.value == value && c.path == Tag.Error
    {
      c := Of(value, Tag.Error);
    }

    /** `nothing()` takes no payload and stores `undefined`. */
    static method Nothing() returns (c: Chainable<T>)
      ensures fresh(c) && c.value == Undefined && c.path == Tag.Nothing
    {
      c := Of(Undefined, Tag.Nothing);
    }

    /** Adopts both fields of `fn(value)`, whatever the tag. */
    method BuildChainable(fn: Callback<T>) returns (self: Chainable<T>)
      modifies this
      ensures self == this
      ensures State() == Step(old(State()), Op.Build(fn))
      ensures State() == fn(old(value))
    {
      var runFn := fn(value);
      value := runFn.value;
      path := runFn.path;
      self := this;
    }

    method Chain(fn: Callback<T>) returns (self: Chainable<T>)
      modifies this
      ensures self == this
      ensures State() == Step(old(State()), Op.Chain(fn))
      ensures Halts(old(path)) ==> unchanged(this)
      ensures !Halts(old(path)) ==> State() == fn(old(value))
    {
      if path == Tag.Error || path == Tag.Nothing {
        return this;
      }
      var runFn := fn(value);
      value := runFn.value;
      path := runFn.path;
      return this;
    }

    method Check(test: Js<T> -> Verdict<T>) returns (self: Chainable<T>)
      modifies this
      ensures self == this
      ensures State() == Step(old(State()), Op.Check(test))
      ensures Halts(old(path)) || test(old(value)).Pass? ==> unchanged(this)
      ensures !Halts(old(path)) && test(old(value)).Replace? ==>
                State() == test(old(value)).next
    {
      if path == Tag.Error || path == Tag.Nothing {
        return this;
      }
      var runFn := test(value);
      if runFn.Pass? {
        return this;
      }
      value := runFn.next.value;
      path := runFn.next.path;
      return this;
    }

    method Either(onLeft: Callback<T>, onRight: Callback<T>) returns (self: Chainable<T>)
      modifies this
      ensures self == this
      ensures State() == Step(old(State()), Op.Either(onLeft, onRight))
      ensures old(path) == Tag.Left ==> State() == onLeft(old(value))
      ensures old(path) == Tag.Right ==> State() == onRight(old(value))
      ensures old(path) != Tag.Left && old(path) != Tag.Right ==> unchanged(this)
    {
      if path == Tag.Left {
        self := BuildChainable(onLeft);
      } else if path == Tag.Right {
        self := BuildChainable(onRight);
      } else {
        self := this;
      }
    }

    method IsLeft(fn: Callback<T>) returns (self: Chainable<T>)
      modifies this
      ensures self == this
      ensures State() == Step(old(State()), Op.IsLeft(fn))
      ensures old(path) == Tag.Left ==> State() == fn(old(value))
      ensures old(path) != Tag.Left ==> unchanged(this)
    {
      if path == Tag.Left {
        self := BuildChainable(fn);
      } else {
        self := this;
      }
    }

    method IsRight(fn: Callback<T>) returns (self: Chainable<T>)
      modifies this
      ensures self == this
      ensures State() == Step(old(State()), Op.IsRight(fn))
      ensures old(path) == Tag.Right ==> State() == fn(old(value))
      ensures old(path) != Tag.Right ==> unchanged(this)
    {
      if path == Tag.Right {
        self := BuildChainable(fn);
      } else {
        self := this;
      }
    }

    /** `matcher[this.path](this)`. A matcher without a key for the current
        tag makes the source call `undefined` and throw, so the handler for
        the current tag must be present. */
    function Match<R>(m: Matcher<T, R>): (r: R)
      reads this
      requires m.For(path).Some?
      ensures path == Tag.Left ==> r == m.left.value(State())
      ensures path == Tag.Right ==> r == m.right.value(State())
      ensures path == Tag.Ok ==> r == m.ok.value(State())
      ensures path == Tag.Error ==> r == m.error.value(State())
      ensures path == Tag.Nothing ==> r == m.nothing.value(State())
    {
      m.For(path).value(State())
    }

    /** The matcher of `matchEither` has no `ok` and no `error` key. */
    function MatchEither<R>(onLeft: Js<T> -> R, onRight: Js<T> -> R): (r: Reply<R>)
      reads this
      requires path == Tag.Left || path == Tag.Right || path == Tag.Nothing
      ensures path == Tag.Left ==> r == Returned(onLeft(value))
      ensures path == Tag.Right ==> r == Returned(onRight(value))
      ensures path == Tag.Nothing ==> r == Literal("nothing")
    {
      Match(Matcher(
        Some((x: Variant<T>) => Returned(onLeft(x.value))),
        Some((x: Variant<T>) => Returned(onRight(x.value))),
        None,
        None,
        Some((x: Variant<T>) => Literal("nothing"))))
    }

    /** The matcher of `result` has no `left` and no `right` key. */
    function Result<R>(onOk: Js<T> -> R, onError: Js<T> -> R): (r: Reply<R>)
      reads this
      requires path == Tag.Ok || path == Tag.Error || path == Tag.Nothing
      ensures path == Tag.Ok ==> r == Returned(onOk(value))
      ensures path == Tag.Error ==> r == Returned(onError(value))
      ensures path == Tag.Nothing ==> r == Literal("nothing")
    {
      Match(Matcher(
        None,
        None,
        Some((x: Variant<T>) => Returned(onOk(x.value))),
        Some((x: Variant<T>) => Returned(onError(x.value))),
        Some((x: Variant<T>) => Literal("nothing"))))
    }

    /** The matcher of `just` has only `ok` and `nothing` keys. `onNothing`
        is `None` when the caller omits the argument, whose default returns
        the string "nothing". */
    function Just<R>(onOk: Js<T> -> R, onNothing: Option<() -> R>): (r: Reply<R>)
      reads this
      requires path == Tag.Ok || path == Tag.Nothing
      ensures path == Tag.Ok ==> r == Returned(onOk(value))
      ensures path == Tag.Nothing && onNothing.Some? ==> r == Returned(onNothing.value())
      ensures path == Tag.Nothing && onNothing.None? ==> r == Literal("nothing")
    {
      Match(Matcher(
        None,
        None,
        Some((x: Variant<T>) => Returned(onOk(x.value))),
        None,
        Some((x: Variant<T>) =>
               match onNothing
               case Some(f) => Returned(f())
               case None => Literal("nothing"))))
    }

    function GetOk(): (r: Js<T>)
      reads this
      ensures path == Tag.Ok ==> r == value
      ensures path != Tag.Ok ==> r.Null?
      ensures !r.Null? <==> path == Tag.Ok && !value.Null?
    {
      if path == Tag.Ok then value else Null
    }

    function GetLeft(): (r: Js<T>)
      reads this
      ensures path == Tag.Left ==> r == value
      ensures path != Tag.Left ==> r.Null?
      ensures !r.Null? <==> path == Tag.Left && !value.Null?
    {
      if path == Tag.Left then value else Null
    }

    function GetRight(): (r: Js<T>)
      reads this
      ensures path == Tag.Right ==> r == value
      ensures path != Tag.Right ==> r.Null?
      ensures !r.Null? <==> path == Tag.Right && !value.Null?
    {
      if path == Tag.Right then value else Null
    }

    function GetError(): (r: Js<T>)
      reads this
      ensures path == Tag.Error ==> r == value
      ensures path != Tag.Error ==> r.Null?
      ensures !r.Null? <==> path == Tag.Error && !value.Null?
    {
      if path == Tag.Error then value else Null
    }

    /** `true` when the tag is `nothing`, `null` otherwise. */
    function GetNothing(): (r: Js<bool>)
      reads this
      ensures r == Defined(true) <==> path == Tag.Nothing
      ensures r.Null? <==> path != Tag.Nothing
    {
      if path == Tag.Nothing then Defined(true) else Null
    }
  }
}
