/**
 * Building the argv-style token list handed to every native entry point
 * (`_prepare_args`): the command name first, then each user argument, where
 * a tuple or list argument is spliced in one level deep and anything else
 * is a single token.
 */
module Args {

  /** One positional argument of a wrapper call. */
  datatype Arg =
    | Tok(token: string)          // any argument that is not a tuple or a list
    | Group(items: seq<string>)   // a tuple or list argument

  /** The tokens one argument contributes to the stream. */
  function Contribution(a: Arg): seq<string>
  {
    match a
    case Tok(t) => [t]
    case Group(items) => items
  }

  /** The tokens of a whole argument list, built the way the loop builds them: one argument appended at a time. */
  function Expand(args: seq<Arg>): seq<string>
    decreases |args|
  {
    if args == [] then [] else Expand(args[..|args| - 1]) + Contribution(args[|args| - 1])
  }

  /** Independent count of the tokens: the sum of every argument's contribution. */
  function TokenCount(args: seq<Arg>): nat
  {
    if args == [] then 0 else |Contribution(args[0])| + TokenCount(args[1..])
  }

  /** The full token list of a call: the command name, then the expanded arguments. */
  function CallArgs(cmd: string, args: seq<Arg>): seq<string>
  {
    [cmd] + Expand(args)
  }

  /** Plain tokens for a list of strings. */
  function Toks(ss: seq<string>): (r: seq<Arg>)
    ensures |r| == |ss|
  {
    seq(|ss|, i requires 0 <= i < |ss| => Tok(ss[i]))
  }

  /** Expansion distributes over concatenation of argument lists. */
  lemma {:induction false} ExpandAppend(a: seq<Arg>, b: seq<Arg>)
    ensures Expand(a + b) == Expand(a) + Expand(b)
  {
    if b == [] {
      assert a + b == a;
    } else {
      var n := |b| - 1;
      assert (a + b)[..|a + b| - 1] == a + b[..n];
      assert (a + b)[|a + b| - 1] == b[n];
      ExpandAppend(a, b[..n]);
    }
  }

  /** The token list holds exactly the sum of the contributions. */
  lemma {:induction false} ExpandLength(args: seq<Arg>)
    ensures |Expand(args)| == TokenCount(args)
  {
    if args != [] {
      assert args == [args[0]] + args[1..];
      ExpandAppend([args[0]], args[1..]);
      assert [args[0]][..0] == [];
      ExpandLength(args[1..]);
    }
  }

  /** The arguments before position k, argument k, and the ones after it, appear in that order. */
  lemma ExpandSplit(args: seq<Arg>, k: nat)
    requires k < |args|
    ensures Expand(args) == Expand(args[..k]) + Contribution(args[k]) + Expand(args[k + 1..])
  {
    var upTo, rest := args[..k + 1], args[k + 1..];
    ExpandPrefix(args, k);
    ExpandAppend(upTo, rest);
    SplitJoin(args, k + 1);
    calc {
      Expand(args);
      Expand(upTo + rest);
      Expand(upTo) + Expand(rest);
      Expand(args[..k]) + Contribution(args[k]) + Expand(rest);
    }
  }

  /** A sequence is its prefix followed by its suffix. */
  lemma SplitJoin<T>(s: seq<T>, n: nat)
    requires n <= |s|
    ensures s[..n] + s[n..] == s
  {
  }

  /** Extending a prefix of the arguments by one argument appends that argument's contribution. */
  lemma ExpandPrefix(args: seq<Arg>, k: nat)
    requires k < |args|
    ensures Expand(args[..k + 1]) == Expand(args[..k]) + Contribution(args[k])
  {
    var upTo := args[..k + 1];
    assert upTo[..k] == args[..k];
  }

  /**
   * Argument k contributes exactly its own tokens, in order, starting right
   * after the tokens of the arguments before it.
   */
  lemma ExpandAt(args: seq<Arg>, k: nat, m: nat)
    requires k < |args| && m < |Contribution(args[k])|
    ensures TokenCount(args[..k]) + m < |Expand(args)|
    ensures Expand(args)[TokenCount(args[..k]) + m] == Contribution(args[k])[m]
  {
    ExpandSplit(args, k);
    ExpandLength(args[..k]);
    ConcatAt(Expand(args[..k]), Contribution(args[k]), Expand(args[k + 1..]), m);
  }

  /** Index |a| + m of a + b + c is index m of b. */
  lemma ConcatAt<T>(a: seq<T>, b: seq<T>, c: seq<T>, m: nat)
    requires m < |b|
    ensures |a| + m < |a + b + c| && (a + b + c)[|a| + m] == b[m]
  {
  }

  /** Arguments that are all plain tokens pass through unchanged. */
  lemma {:induction false} ExpandToks(ss: seq<string>)
    ensures Expand(Toks(ss)) == ss
  {
    if ss != [] {
      var n := |ss| - 1;
      assert Toks(ss)[..n] == Toks(ss[..n]);
      ExpandToks(ss[..n]);
      assert ss == ss[..n] + [ss[n]];
    }
  }

  /** A call with tuples or lists yields the same tokens as the same call with their items written out. */
  lemma GroupIsSpliced(before: seq<Arg>, items: seq<string>, after: seq<Arg>)
    ensures Expand(before + [Group(items)] + after) == Expand(before + Toks(items) + after)
  {
    ExpandAppend(before + [Group(items)], after);
    ExpandAppend(before, [Group(items)]);
    assert [Group(items)][..0] == [];
    ExpandAppend(before + Toks(items), after);
    ExpandAppend(before, Toks(items));
    ExpandToks(items);
  }

  /** `_prepare_args`: the token list of a call, grown one argument at a time. */
  method PrepareArgs(cmd: string, args: seq<Arg>) returns (ret: seq<string>)
    ensures ret == CallArgs(cmd, args)
    ensures |ret| == 1 + TokenCount(args) && ret[0] == cmd
  {
    ret := [cmd];
    for k := 0 to |args|
      invariant ret == [cmd] + Expand(args[..k])
    {
      match args[k] {
        case Group(items) =>
          ret := ret + items;
        case Tok(t) =>
          ret := ret + [t];
      }
      assert args[..k + 1][..k] == args[..k];
    }
    assert args[..|args|] == args;
    ExpandLength(args);
  }

  /** The list-valued `create` call of the test suite, and a call whose only argument is an empty tuple. */
  lemma CreateWithListsTokens()
    ensures CallArgs("create", [Tok("/tmp/foo"), Tok("-s 10"),
                                Group(["DS:a:GAUGE:120:0:U", "DS:b:GAUGE:120:0:U"]),
                                Group(["RRA:AVERAGE:0.5:1:100", "RRA:AVERAGE:0.5:10:1000"])])
         == ["create", "/tmp/foo", "-s 10", "DS:a:GAUGE:120:0:U", "DS:b:GAUGE:120:0:U",
             "RRA:AVERAGE:0.5:1:100", "RRA:AVERAGE:0.5:10:1000"]
    ensures CallArgs("create", [Group([])]) == ["create"]
  {
    var ds := Group(["DS:a:GAUGE:120:0:U", "DS:b:GAUGE:120:0:U"]);
    var rra := Group(["RRA:AVERAGE:0.5:1:100", "RRA:AVERAGE:0.5:10:1000"]);
    var args := [Tok("/tmp/foo"), Tok("-s 10"), ds, rra];
    assert args == Toks(["/tmp/foo", "-s 10"]) + [ds] + [rra];
    ExpandAppend(Toks(["/tmp/foo", "-s 10"]) + [ds], [rra]);
    ExpandAppend(Toks(["/tmp/foo", "-s 10"]), [ds]);
    ExpandToks(["/tmp/foo", "-s 10"]);
    assert [ds][..0] == [] && [rra][..0] == [];
    assert [Group([])][..0] == [];
  }
}
