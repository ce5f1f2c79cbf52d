/** Small string helpers shared by the formatters and their parsers. */
module Text {
  import opened Wrappers

  /** A string cut at the first occurrence of a delimiter, the delimiter removed. */
  datatype Split = Split(before: string, after: string)

  /** Splits `s` at the first occurrence of `c`. */
  function SplitAt(s: string, c: char): (r: Option<Split>)
    ensures r.None? <==> c !in s
    ensures r.Some? ==> c !in r.value.before && s == r.value.before + [c] + r.value.after
  {
    if |s| == 0 then None
    else if s[0] == c then Some(Split([], s[1..]))
    else
      match SplitAt(s[1..], c)
      case None => None
      case Some(sp) => Some(Split([s[0]] + sp.before, sp.after))
  }

  /** Splitting `a + [c] + b` at `c` gives back `a` and `b` as long as `c` does not occur in `a`. */
  lemma {:induction false} SplitAtJoin(a: string, c: char, b: string)
    requires c !in a
    ensures SplitAt(a + [c] + b, c) == Some(Split(a, b))
  {
    if |a| == 0 {
      assert a + [c] + b == [c] + b;
    } else {
      assert (a + [c] + b)[1..] == a[1..] + [c] + b;
      SplitAtJoin(a[1..], c, b);
      assert [a[0]] + a[1..] == a;
    }
  }

  /** `s` without the prefix `p`, if `s` starts with it. */
  function StripPrefix(p: string, s: string): (r: Option<string>)
    ensures r.Some? <==> p <= s
    ensures r.Some? ==> s == p + r.value
  {
    if |p| <= |s| && s[..|p|] == p then Some(s[|p|..]) else None
  }

  lemma StripPrefixJoin(p: string, t: string)
    ensures StripPrefix(p, p + t) == Some(t)
  {
    assert (p + t)[..|p|] == p;
    assert (p + t)[|p|..] == t;
  }

  /**
   * `fmt.Sprintf` once every verb has been rendered: the format's literal pieces `lits` with the
   * rendered arguments `args` in between, `lits[0] + args[0] + lits[1] + ... + lits[|args|]`.
   */
  function Format(lits: seq<string>, args: seq<string>): string
    requires |lits| == |args| + 1
  {
    FormatFrom(lits, args, 0)
  }

  /** `lits[k] + args[k] + ... + lits[|args|]`, the part of `Format(lits, args)` from piece `k` on. */
  function FormatFrom(lits: seq<string>, args: seq<string>, k: nat): string
    requires |lits| == |args| + 1 && k <= |args|
    decreases |args| - k
  {
    if k == |args| then lits[k] else lits[k] + (args[k] + FormatFrom(lits, args, k + 1))
  }

  /** The formatted text from piece `k` on starts with literal `k`. */
  lemma FormatFromPrefix(lits: seq<string>, args: seq<string>, k: nat)
    requires |lits| == |args| + 1 && k <= |args|
    ensures lits[k] <= FormatFrom(lits, args, k)
  {
    if k < |args| {
      var rest := args[k] + FormatFrom(lits, args, k + 1);
      assert (lits[k] + rest)[..|lits[k]|] == lits[k];
    }
  }

  /** `lits[0] + args[0] + ... + lits[j - 1] + args[j - 1]`, grouped from the left: the text before piece `j`. */
  function FormatUpTo(lits: seq<string>, args: seq<string>, j: nat): string
    requires |lits| == |args| + 1 && j <= |args|
  {
    if j == 0 then "" else FormatUpTo(lits, args, j - 1) + lits[j - 1] + args[j - 1]
  }

  /** The formatted text is the text before piece `j` followed by the text from piece `j` on. */
  lemma {:induction false} FormatSplit(lits: seq<string>, args: seq<string>, j: nat)
    requires |lits| == |args| + 1 && j <= |args|
    ensures Format(lits, args) == FormatUpTo(lits, args, j) + FormatFrom(lits, args, j)
  {
    if j == 0 {
      assert "" + FormatFrom(lits, args, 0) == FormatFrom(lits, args, 0);
    } else {
      FormatSplit(lits, args, j - 1);
      var u, l, a, f := FormatUpTo(lits, args, j - 1), lits[j - 1], args[j - 1], FormatFrom(lits, args, j);
      assert FormatFrom(lits, args, j - 1) == l + (a + f);
      assert u + (l + (a + f)) == u + l + a + f;
    }
  }

  /** `Format(lits, args)` grouped from the left: every piece in order, ending with the last literal. */
  lemma FormatLeftNested(lits: seq<string>, args: seq<string>)
    requires |lits| == |args| + 1
    ensures Format(lits, args) == FormatUpTo(lits, args, |args|) + lits[|args|]
  {
    FormatSplit(lits, args, |args|);
  }

  /**
   * The arguments can be cut out of `Format(lits, args)` again: every literal between two
   * arguments is non-empty, and no argument contains the first character of the literal after it.
   */
  predicate Separable(lits: seq<string>, args: seq<string>)
    requires |lits| == |args| + 1
  {
    && (forall i :: 1 <= i < |args| ==> lits[i] != "")
    && (forall i :: 0 <= i < |args| ==> lits[i + 1] != "" ==> lits[i + 1][0] !in args[i])
  }

  /**
   * Reads the arguments back out of a formatted string: each argument runs up to the first
   * occurrence of the first character of the next literal, the last one to the end when the
   * final literal is empty.
   */
  function Unformat(lits: seq<string>, s: string): Option<seq<string>>
    requires |lits| >= 1
  {
    UnformatFrom(lits, 0, s)
  }

  /** Reads the arguments from piece `k` on. */
  function UnformatFrom(lits: seq<string>, k: nat, s: string): Option<seq<string>>
    requires k < |lits|
    decreases |lits| - k
  {
    var r :- StripPrefix(lits[k], s);
    if k == |lits| - 1 then (if r == "" then Some([]) else None)
    else if lits[k + 1] == "" then (if k + 2 == |lits| then Some([r]) else None)
    else
      var sp :- SplitAt(r, lits[k + 1][0]);
      var rest :- UnformatFrom(lits, k + 1, [lits[k + 1][0]] + sp.after);
      Some([sp.before] + rest)
  }

  /**
   * One step of `UnformatFrom`: after literal `k` comes an argument `v` free of the first
   * character of literal `k + 1`, and then a rest, starting with literal `k + 1`, that reads back as `vs`.
   */
  lemma UnformatFromStep(lits: seq<string>, k: nat, v: string, rest: string, vs: seq<string>)
    requires k + 1 < |lits| && lits[k + 1] != "" && lits[k + 1][0] !in v && lits[k + 1] <= rest
    requires UnformatFrom(lits, k + 1, rest) == Some(vs)
    ensures UnformatFrom(lits, k, lits[k] + (v + rest)) == Some([v] + vs)
  {
    var c := lits[k + 1][0];
    StripPrefixJoin(lits[k], v + rest);
    assert rest == [c] + rest[1..];
    assert v + rest == v + [c] + rest[1..];
    SplitAtJoin(v, c, rest[1..]);
  }

  /** The last step: an argument `v` that runs to the end, after which the final literal is empty. */
  lemma UnformatFromLast(lits: seq<string>, k: nat, v: string)
    requires k + 2 == |lits| && lits[k + 1] == ""
    ensures UnformatFrom(lits, k, lits[k] + (v + lits[k + 1])) == Some([v])
  {
    assert v + lits[k + 1] == v;
    StripPrefixJoin(lits[k], v);
  }

  lemma UnformatFormatFromEnd(lits: seq<string>, args: seq<string>)
    requires |lits| == |args| + 1
    ensures UnformatFrom(lits, |args|, FormatFrom(lits, args, |args|)) == Some(args[|args|..])
  {
    var k := |args|;
    assert FormatFrom(lits, args, k) == lits[k] + "";
    StripPrefixJoin(lits[k], "");
    assert args[k..] == [];
  }

  /** Reading back the final argument when the literal after it is empty. */
  lemma UnformatFormatFromLast(lits: seq<string>, args: seq<string>, k: nat)
    requires |lits| == |args| + 1 && k + 1 == |args| && lits[k + 1] == ""
    ensures UnformatFrom(lits, k, FormatFrom(lits, args, k)) == Some(args[k..])
  {
    assert FormatFrom(lits, args, k + 1) == lits[k + 1];
    UnformatFromLast(lits, k, args[k]);
    assert [args[k]] == args[k..];
  }

  /** One step of `FormatFrom`, and the matching step of the argument suffixes. */
  lemma FormatFromUnfold(lits: seq<string>, args: seq<string>, k: nat)
    requires |lits| == |args| + 1 && k < |args|
    ensures FormatFrom(lits, args, k) == lits[k] + (args[k] + FormatFrom(lits, args, k + 1))
    ensures lits[k + 1] <= FormatFrom(lits, args, k + 1)
    ensures [args[k]] + args[k + 1..] == args[k..]
  {
    FormatFromPrefix(lits, args, k + 1);
  }

  /** The inductive step: reading back from piece `k` reduces to reading back from piece `k + 1`. */
  lemma UnformatFormatFromNext(lits: seq<string>, args: seq<string>, k: nat)
    requires |lits| == |args| + 1 && k < |args| && lits[k + 1] != ""
    requires lits[k + 1][0] !in args[k]
    requires UnformatFrom(lits, k + 1, FormatFrom(lits, args, k + 1)) == Some(args[k + 1..])
    ensures UnformatFrom(lits, k, FormatFrom(lits, args, k)) == Some(args[k..])
  {
    FormatFromUnfold(lits, args, k);
    UnformatFromStep(lits, k, args[k], FormatFrom(lits, args, k + 1), args[k + 1..]);
  }

  /** Argument `k` is delimited by the literal after it, or that literal is empty and `k` is last. */
  predicate SeparatedAt(lits: seq<string>, args: seq<string>, k: nat)
    requires |lits| == |args| + 1 && k < |args|
  {
    if lits[k + 1] == "" then k + 1 == |args| else lits[k + 1][0] !in args[k]
  }

  /** `SeparatedAt` holds for every argument from `k` on. */
  predicate SeparatedFrom(lits: seq<string>, args: seq<string>, k: nat)
    requires |lits| == |args| + 1 && k <= |args|
    decreases |args| - k
  {
    k == |args| || (SeparatedAt(lits, args, k) && SeparatedFrom(lits, args, k + 1))
  }

  lemma {:induction false} SeparableFrom(lits: seq<string>, args: seq<string>, k: nat)
    requires |lits| == |args| + 1 && k <= |args|
    requires Separable(lits, args)
    ensures SeparatedFrom(lits, args, k)
    decreases |args| - k
  {
    if k < |args| {
      SeparableFrom(lits, args, k + 1);
    }
  }

  /** Reading back from piece `k < |args|`, given that reading back from piece `k + 1` works. */
  lemma UnformatFormatFromAt(lits: seq<string>, args: seq<string>, k: nat)
    requires |lits| == |args| + 1 && k < |args|
    requires SeparatedAt(lits, args, k)
    requires UnformatFrom(lits, k + 1, FormatFrom(lits, args, k + 1)) == Some(args[k + 1..])
    ensures UnformatFrom(lits, k, FormatFrom(lits, args, k)) == Some(args[k..])
  {
    if lits[k + 1] == "" {
      UnformatFormatFromLast(lits, args, k);
    } else {
      UnformatFormatFromNext(lits, args, k);
    }
  }

  /** Reading back the arguments from piece `k` on, by induction on the number left. */
  lemma {:induction false} UnformatFormatFrom(lits: seq<string>, args: seq<string>, k: nat)
    requires |lits| == |args| + 1 && k <= |args|
    requires SeparatedFrom(lits, args, k)
    ensures UnformatFrom(lits, k, FormatFrom(lits, args, k)) == Some(args[k..])
    decreases |args| - k
  {
    if k == |args| {
      UnformatFormatFromEnd(lits, args);
    } else {
      UnformatFormatFrom(lits, args, k + 1);
      UnformatFormatFromAt(lits, args, k);
    }
  }

  /** Formatting and then reading back gives the arguments. */
  lemma UnformatFormat(lits: seq<string>, args: seq<string>)
    requires |lits| == |args| + 1
    requires Separable(lits, args)
    ensures Unformat(lits, Format(lits, args)) == Some(args)
  {
    SeparableFrom(lits, args, 0);
    UnformatFormatFrom(lits, args, 0);
  }

  /** `FormatFrom(lits, args, k)` depends only on the arguments from `k` on. */
  lemma {:induction false} FormatFromSuffix(lits: seq<string>, args1: seq<string>, args2: seq<string>, k: nat)
    requires |lits| == |args1| + 1 && |args1| == |args2| && k <= |args1|
    requires args1[k..] == args2[k..]
    ensures FormatFrom(lits, args1, k) == FormatFrom(lits, args2, k)
    decreases |args1| - k
  {
    if k < |args1| {
      assert args1[k] == args1[k..][0] == args2[k..][0] == args2[k];
      assert args1[k + 1..] == args1[k..][1..] == args2[k..][1..] == args2[k + 1..];
      FormatFromSuffix(lits, args1, args2, k + 1);
    }
  }

  /** Go's map index expression on a string-valued map: a missing key yields the zero value `""`. */
  function LookupOrEmpty<K>(m: map<K, string>, k: K): (v: string)
    ensures k in m ==> v == m[k]
    ensures k !in m ==> v == ""
  {
    if k in m then m[k] else ""
  }
}
