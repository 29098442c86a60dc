/**
 * The megaphone of `m00/ex00`: the command-line arguments after the program
 * name, upper-cased and each followed by a space; with no argument, a noise.
 */
module Megaphone {
  import opened Strings

  const Noise := "* LOUD AND UNBEARABLE FEEDBACK NOISE *"

  /** The arguments upper-cased, each followed by one space, in order. */
  function Shout(args: seq<string>): (out: string)
    ensures |out| == |Concat(args)| + |args|
  {
    if args == [] then "" else ToUpper(args[0]) + " " + Shout(args[1..])
  }

  /** One more argument adds its upper-cased text and a space at the end. */
  lemma {:induction false} ShoutAppend(args: seq<string>, a: string)
    ensures Shout(args + [a]) == Shout(args) + ToUpper(a) + " "
    decreases |args|
  {
    if args == [] {
      assert [] + [a] == [a];
    } else {
      var head := ToUpper(args[0]) + " ";
      assert (args + [a])[0] == args[0] && (args + [a])[1..] == args[1..] + [a];
      assert Shout(args + [a]) == head + Shout(args[1..] + [a]);
      ShoutAppend(args[1..], a);
      assert Shout(args) == head + Shout(args[1..]);
    }
  }

  /** No lower-case ASCII letter is left in the output. */
  lemma {:induction false} ShoutIsUpper(args: seq<string>)
    ensures forall i :: 0 <= i < |Shout(args)| ==> !('a' <= Shout(args)[i] <= 'z')
    decreases |args|
  {
    if args != [] {
      ShoutIsUpper(args[1..]);
      var head := ToUpper(args[0]) + " ";
      assert Shout(args) == head + Shout(args[1..]);
      forall i | 0 <= i < |Shout(args)| ensures !('a' <= Shout(args)[i] <= 'z') {
        if i < |head| - 1 {
          assert Shout(args)[i] == ToAsciiUpper(args[0][i]);
        } else if i >= |head| {
          assert Shout(args)[i] == Shout(args[1..])[i - |head|];
        }
      }
    }
  }

  /**
   * `main`: with the program name alone (or nothing), the noise and a newline;
   * otherwise the program name is removed and every other argument is shouted.
   */
  method Output(args: seq<string>) returns (out: string)
    ensures |args| <= 1 ==> out == Noise + "\n"
    ensures |args| > 1 ==> out == Shout(args[1..])
  {
    if |args| <= 1 {
      return Noise + "\n";
    }
    var rest := args[1..];
    out := "";
    for i := 0 to |rest|
      invariant out == Shout(rest[..i])
    {
      ShoutAppend(rest[..i], rest[i]);
      assert rest[..i + 1] == rest[..i] + [rest[i]];
      out := out + ToUpper(rest[i]) + " ";
    }
    assert rest[..|rest|] == rest;
  }
}
