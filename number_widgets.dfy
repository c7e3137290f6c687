/** The numeric editors: `NumberAttributes`, its `map`, and how the `ui`
    bodies of the numeric impls turn the attributes into a drag-value
    widget configuration.

    Values of the edited type are of a type parameter `T`; the casts the
    Rust code applies to them (`as f32`, `as f64`) are an abstract function
    `T -> real` handed in by the caller. Drag speeds are `f32` in the
    Rust code and `real` here. */
module NumberWidgets {
  import opened Inspectable

  /** Per-field options of a numeric editor. */
  datatype NumberAttributes<T> = NumberAttributes(
    min: T,
    max: T,
    /** How much the value changes when dragged one logical pixel. */
    speed: real,
    prefix: string,
    suffix: string)
  {
    /** Applies `f` to the bounds and copies the display options. */
    function Map<U>(f: T -> U): (r: NumberAttributes<U>)
      // only the bounds are transformed
      ensures r.min == f(min) && r.max == f(max)
      ensures r.speed == speed && r.prefix == prefix && r.suffix == suffix
    {
      NumberAttributes(f(min), f(max), speed, prefix, suffix)
    }
  }

  /** The `Default` impl: both bounds are the type's default value `zero`,
      the speed is zero and prefix and suffix are empty. */
  function DefaultNumberAttributes<T>(zero: T): (a: NumberAttributes<T>)
    ensures a.min == zero && a.max == zero
    ensures a.speed == 0.0 && a.prefix == "" && a.suffix == ""
  {
    NumberAttributes(zero, zero, 0.0, "", "")
  }

  /** An inclusive range `lo..=hi`; nothing orders the two ends. */
  datatype Range = Range(lo: real, hi: real)

  /** What a drag-value widget has been told; `None` leaves the widget's own
      behaviour in place. */
  datatype DragValue = DragValue(
    prefix: Option<string>,
    suffix: Option<string>,
    range: Option<Range>,
    speed: Option<real>)
  {
    function WithPrefix(p: string): DragValue { this.(prefix := Some(p)) }
    function WithSuffix(s: string): DragValue { this.(suffix := Some(s)) }
    function WithRange(lo: real, hi: real): DragValue { this.(range := Some(Range(lo, hi))) }
    function WithSpeed(v: real): DragValue { this.(speed := Some(v)) }
  }

  /** A freshly created widget bound to the value, before any option. */
  const Fresh := DragValue(None, None, None, None)

  /** The numeric types that have an editor. The first four are generated
      by `impl_for_num!`, the others by `impl_for_num_delegate_f64!`. */
  datatype NumberType = F32 | F64 | U8 | I32 | U16 | U32 | U64 | I8 | I16 | I64 {
    /** The types whose editor converts to `f64` and uses the `f64` editor. */
    predicate DelegatesToF64() {
      !(F32? || F64? || U8? || I32?)
    }

    /** The `default_speed` given to `impl_for_num!`, if any. */
    function DefaultSpeed(): Option<real>
      requires !DelegatesToF64()
    {
      match this
      case F32 => Some(0.1)
      case F64 => Some(0.1)
      case U8 => None
      case I32 => None
    }
  }

  /** The `ui` body of `impl_for_num!`: each option is applied to the widget
      under its own condition. `asF32` is the cast used for the range ends. */
  function DirectUi<T(==)>(defaultSpeed: Option<real>, options: Options<NumberAttributes<T>>,
                           asF32: T -> real): (w: DragValue)
    ensures w.prefix == (if options.custom.prefix == "" then None else Some(options.custom.prefix))
    ensures w.suffix == (if options.custom.suffix == "" then None else Some(options.custom.suffix))
    ensures var c := options.custom;
      w.range == (if c.min != c.max then Some(Range(asF32(c.min), asF32(c.max))) else None)
    // without a custom speed the widget gets the default speed if there is one,
    // and is otherwise left with none
    ensures w.speed == (if options.custom.speed != 0.0 then Some(options.custom.speed) else defaultSpeed)
  {
    var custom := options.custom;
    var w := Fresh;
    var w := if custom.prefix != "" then w.WithPrefix(custom.prefix) else w;
    var w := if custom.suffix != "" then w.WithSuffix(custom.suffix) else w;
    var w := if custom.min != custom.max then w.WithRange(asF32(custom.min), asF32(custom.max)) else w;
    if custom.speed != 0.0 then w.WithSpeed(custom.speed)
    else if defaultSpeed.Some? then w.WithSpeed(defaultSpeed.value)
    else w
  }

  /** The option rewriting of `impl_for_num_delegate_f64!`: the bounds are
      cast to `f64` and a zero speed becomes 1.0. */
  function DelegateOptions<T>(custom: NumberAttributes<T>, asF64: T -> real): (r: NumberAttributes<real>)
    ensures r.min == asF64(custom.min) && r.max == asF64(custom.max)
    ensures r.prefix == custom.prefix && r.suffix == custom.suffix
    ensures r.speed != 0.0
    ensures r.speed == (if custom.speed == 0.0 then 1.0 else custom.speed)
  {
    var c := custom.Map(asF64);
    if c.speed == 0.0 then c.(speed := 1.0) else c
  }

  /** The `ui` body of `impl_for_num_delegate_f64!`: it hands the rewritten
      options to the `f64` editor. On this path that editor's `as f32` on
      the range ends is the identity, both float types being `real`. */
  function DelegatedUi<T>(options: Options<NumberAttributes<T>>, asF64: T -> real): (w: DragValue)
    ensures w.prefix == (if options.custom.prefix == "" then None else Some(options.custom.prefix))
    ensures w.suffix == (if options.custom.suffix == "" then None else Some(options.custom.suffix))
    // the bounds are compared once cast to f64
    ensures var c := options.custom;
      w.range == (if asF64(c.min) != asF64(c.max) then Some(Range(asF64(c.min), asF64(c.max))) else None)
    // the zero speed was replaced by 1.0, so the f64 default never applies
    ensures w.speed == Some(if options.custom.speed == 0.0 then 1.0 else options.custom.speed)
  {
    DirectUi(F64.DefaultSpeed(), options.Map(c => DelegateOptions(c, asF64)), (x: real) => x)
  }

  /** The widget configuration that the editor of type `ty` produces.
      `cast` is the conversion the Rust code applies to the bounds: `as f32`
      for the direct types, `as f64` for the delegated ones. */
  function NumberUi<T(==)>(ty: NumberType, options: Options<NumberAttributes<T>>, cast: T -> real): (w: DragValue)
    // a prefix or a suffix is set exactly when its option string is non-empty
    ensures w.prefix == (if options.custom.prefix == "" then None else Some(options.custom.prefix))
    ensures w.suffix == (if options.custom.suffix == "" then None else Some(options.custom.suffix))
    // a range is set when the bounds differ (for the delegated types: once cast
    // to f64), with min as its lower and max as its upper end, in that order
    ensures var c := options.custom;
      w.range == (if (if ty.DelegatesToF64() then cast(c.min) != cast(c.max) else c.min != c.max)
                  then Some(Range(cast(c.min), cast(c.max))) else None)
    // a non-zero custom speed wins; otherwise the type's default, which for the
    // delegated types is 1.0
    ensures w.speed == (if options.custom.speed != 0.0 then Some(options.custom.speed)
                        else if ty.DelegatesToF64() then Some(1.0)
                        else ty.DefaultSpeed())
  {
    if ty.DelegatesToF64() then DelegatedUi(options, cast) else DirectUi(ty.DefaultSpeed(), options, cast)
  }

  /** `map` with the identity gives the attributes back, and two maps are one
      map with the composed function. */
  lemma MapFunctorLaws<T, U, V>(a: NumberAttributes<T>, f: T -> U, g: U -> V)
    ensures a.Map(x => x) == a
    ensures a.Map(f).Map(g) == a.Map(x => g(f(x)))
  {
  }

  /** The default attributes yield no prefix, no suffix and no range; the
      speed is the type's default (1.0 for the delegated types). */
  lemma DefaultsGiveBareWidget<T>(ty: NumberType, zero: T, cast: T -> real)
    ensures var w := NumberUi(ty, Options(DefaultNumberAttributes(zero)), cast);
      w.prefix == None && w.suffix == None && w.range == None
      && w.speed == (if ty.DelegatesToF64() then Some(1.0) else ty.DefaultSpeed())
  {
  }

  /** The resolved speed is the custom one when it is non-zero, otherwise
      0.1 for `f32` and `f64` and nothing for `u8` and `i32`. */
  lemma DirectSpeed<T>(ty: NumberType, options: Options<NumberAttributes<T>>, cast: T -> real)
    requires !ty.DelegatesToF64()
    ensures var w := NumberUi(ty, options, cast);
      (options.custom.speed != 0.0 ==> w.speed == Some(options.custom.speed))
      && (options.custom.speed == 0.0 && (ty == F32 || ty == F64) ==> w.speed == Some(0.1))
      && (options.custom.speed == 0.0 && (ty == U8 || ty == I32) ==> w.speed == None)
  {
  }

  /** The delegated types always get a speed, never a zero one, and the
      `f64` default 0.1 reaches them only when it is their own custom speed. */
  lemma DelegatedSpeedNeverZero<T>(ty: NumberType, options: Options<NumberAttributes<T>>, cast: T -> real)
    requires ty.DelegatesToF64()
    ensures var w := NumberUi(ty, options, cast);
      w.speed.Some? && w.speed.value != 0.0
      && (w.speed == Some(0.1) ==> options.custom.speed == 0.1)
  {
  }

  /** For a delegated type whose cast to `f64` is injective the range
      condition is the same as for the direct types: the bounds differ. */
  lemma DelegatedRangeWithInjectiveCast<T>(ty: NumberType, options: Options<NumberAttributes<T>>, cast: T -> real)
    requires ty.DelegatesToF64()
    requires options.custom.min != options.custom.max ==> cast(options.custom.min) != cast(options.custom.max)
    ensures NumberUi(ty, options, cast).range.Some? <==> options.custom.min != options.custom.max
  {
  }

  /** Bounds are passed on in the order given, whatever that order is:
      nothing checks that min <= max, so min > max gives a reversed range. */
  lemma ReversedBoundsAreKept<T>(ty: NumberType, options: Options<NumberAttributes<T>>, cast: T -> real)
    requires cast(options.custom.min) > cast(options.custom.max)
    ensures NumberUi(ty, options, cast).range == Some(Range(cast(options.custom.min), cast(options.custom.max)))
  {
  }
}
