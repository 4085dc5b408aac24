/** Navigation routes: the `Screen` enum and its argument-appending route builder. */
module ScreenRoutes {

  /** The screens of the application; each carries its route destination. */
  datatype Screen = Splash

  /** Route of the splash screen. */
  const SplashDestination: string := "splash"

  /** The destination string an enum constant was declared with. */
  function Destination(screen: Screen): string
  {
    match screen
    case Splash => SplashDestination
  }

  /** `screen()`: the route without arguments, which is the destination itself. */
  function Invoke(screen: Screen): (route: string)
    ensures screen == Splash ==> route == "splash"
    ensures route == AppendedArgs(Destination(screen), [])
  {
    Destination(screen)
  }

  /** The pieces `"/" + a` for each argument `a`, concatenated in order. */
  function Slashed(args: seq<string>): string
  {
    if args == [] then "" else "/" + args[0] + Slashed(args[1..])
  }

  /** The route `appendArg` builds: the destination followed by the slashed arguments. */
  function AppendedArgs(destination: string, args: seq<string>): string
  {
    destination + Slashed(args)
  }

  /** Total number of characters the arguments contribute, one '/' each included. */
  function PiecesLength(args: seq<string>): nat
  {
    if args == [] then 0 else |args[0]| + 1 + PiecesLength(args[1..])
  }

  /** Slashing distributes over concatenation of argument lists. */
  lemma {:induction false} SlashedAppend(xs: seq<string>, ys: seq<string>)
    ensures Slashed(xs + ys) == Slashed(xs) + Slashed(ys)
  {
    if xs == [] {
      assert xs + ys == ys;
    } else {
      assert (xs + ys)[1..] == xs[1..] + ys;
      SlashedAppend(xs[1..], ys);
    }
  }

  /** `appendArg(xs ++ ys)` is `appendArg(xs)` followed by the slashed pieces of `ys`. */
  lemma AppendedArgsAppend(destination: string, xs: seq<string>, ys: seq<string>)
    ensures AppendedArgs(destination, xs + ys) == AppendedArgs(destination, xs) + Slashed(ys)
  {
    SlashedAppend(xs, ys);
  }

  /** Each argument contributes its own length plus one for its slash. */
  lemma {:induction false} SlashedLength(args: seq<string>)
    ensures |Slashed(args)| == PiecesLength(args)
  {
    if args != [] {
      SlashedLength(args[1..]);
    }
  }

  /** `appendArg(args)`, built as the source does: append the destination, then one piece per argument. */
  method AppendArg(screen: Screen, args: seq<string>) returns (route: string)
    ensures route == AppendedArgs(Destination(screen), args)
    ensures |route| == |Destination(screen)| + PiecesLength(args)
    ensures route[..|Destination(screen)|] == Destination(screen)
    ensures args == [] ==> route == Invoke(screen)
  {
    var destination := Destination(screen);
    route := destination;
    for i := 0 to |args|
      invariant route == AppendedArgs(destination, args[..i])
    {
      AppendedArgsAppend(destination, args[..i], [args[i]]);
      assert args[..i + 1] == args[..i] + [args[i]];
      route := route + "/" + args[i];
    }
    assert args[..|args|] == args;
    SlashedLength(args);
  }
}
