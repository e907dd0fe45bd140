/** Joining strings into a separated list, by a loop over a vector and by
    recursion over a parameter pack. */
module StringUtils {

  /** The separator the parameter-pack overloads put between elements. */
  const SEPARATOR: string := ", "

  /** The join both functions aim at: nothing for no strings, the string
      itself for one, and otherwise the head, the separator and the join of
      the rest. MakeCommaSeparatedList computes it; the parameter-pack
      overloads compute it only when their last argument is a const
      std::string lvalue. */
  function Join(strings: seq<string>, separator: string): (joined: string)
    ensures |strings| == 0 ==> joined == ""
    ensures |strings| == 1 ==> joined == strings[0]
    ensures |strings| >= 1 ==> |joined| == TotalLength(strings) + (|strings| - 1) * |separator|
    ensures |strings| >= 1 ==> joined[..|strings[0]|] == strings[0]
  {
    if |strings| == 0 then ""
    else if |strings| == 1 then strings[0]
    else strings[0] + separator + Join(strings[1..], separator)
  }

  /** One argument of a MakeCommaSeparatedListFromPack call: its text, and
      whether it is a const std::string lvalue. Only such an argument, in the
      last position, selects the non-template one-string overload; a string
      literal, a non-const std::string lvalue or any rvalue binds better to
      the forwarding-reference template, which then recurses into the
      nullary overload. */
  datatype PackArg = PackArg(text: string, isConstStringLvalue: bool)

  /** The texts of the arguments, in order. */
  function Texts(args: seq<PackArg>): (texts: seq<string>)
    ensures |texts| == |args|
    ensures forall i :: 0 <= i < |args| ==> texts[i] == args[i].text
  {
    seq(|args|, i requires 0 <= i < |args| => args[i].text)
  }

  /** MakeCommaSeparatedListFromPack as overload resolution picks it: the
      nullary overload gives "", the one-string overload returns a last const
      std::string lvalue unchanged, and the template gives the head, ", " and
      the result for the rest, even when the rest is empty. */
  function MakeCommaSeparatedListFromPack(args: seq<PackArg>): (joined: string)
    ensures |args| == 0 ==> joined == ""
    ensures |args| >= 1 ==> |joined| >= |args[0].text| && joined[..|args[0].text|] == args[0].text
    ensures |args| >= 1 && !args[|args| - 1].isConstStringLvalue ==>
      |joined| >= |SEPARATOR| && joined[|joined| - |SEPARATOR|..] == SEPARATOR
  {
    if |args| == 0 then ""
    else if |args| == 1 && args[0].isConstStringLvalue then args[0].text
    else args[0].text + SEPARATOR + MakeCommaSeparatedListFromPack(args[1..])
  }

  /** The pack join is the intended join exactly when the last argument is a
      const std::string lvalue; otherwise one separator trails it. */
  lemma {:induction false} PackJoinAsWritten(args: seq<PackArg>)
    requires |args| >= 1
    ensures args[|args| - 1].isConstStringLvalue ==>
      MakeCommaSeparatedListFromPack(args) == Join(Texts(args), SEPARATOR)
    ensures !args[|args| - 1].isConstStringLvalue ==>
      MakeCommaSeparatedListFromPack(args) == Join(Texts(args), SEPARATOR) + SEPARATOR
  {
    if |args| >= 2 {
      var rest := args[1..];
      PackJoinAsWritten(rest);
      assert Texts(args)[1..] == Texts(rest);
      assert rest[|rest| - 1] == args[|args| - 1];
    }
  }

  /** Two file names given as string literals, as a caller forwarding its own
      arguments passes them, are listed with a trailing separator. */
  lemma LiteralPackHasTrailingSeparator()
    ensures MakeCommaSeparatedListFromPack([PackArg("a.vert", false), PackArg("a.frag", false)]) == "a.vert, a.frag, "
    ensures MakeCommaSeparatedListFromPack([PackArg("x", false)]) == "x, "
  {
    assert [PackArg("a.vert", false), PackArg("a.frag", false)][1..] == [PackArg("a.frag", false)];
    assert [PackArg("a.frag", false)][1..] == [];
    assert [PackArg("x", false)][1..] == [];
  }

  /** The pack join as intended: the one-string case ends the recursion for
      every kind of argument. It is the join MakeCommaSeparatedList gives for
      the same strings and ", ". */
  function CommaSeparatedListFromPack(args: seq<PackArg>): (joined: string)
    ensures joined == Join(Texts(args), SEPARATOR)
  {
    if |args| == 0 then ""
    else if |args| == 1 then args[0].text
    else
      assert Texts(args)[1..] == Texts(args[1..]);
      args[0].text + SEPARATOR + CommaSeparatedListFromPack(args[1..])
  }

  /** The join ends with the last string, with no separator after it. */
  lemma {:induction false} JoinEndsWithLast(strings: seq<string>, separator: string)
    requires |strings| >= 1
    ensures var joined := Join(strings, separator);
      var last := strings[|strings| - 1];
      |joined| >= |last| && joined[|joined| - |last|..] == last
  {
    if |strings| >= 2 {
      var rest := Join(strings[1..], separator);
      var prefix := strings[0] + separator;
      var last := strings[|strings| - 1];
      JoinEndsWithLast(strings[1..], separator);
      assert Join(strings, separator) == prefix + rest;
      assert (prefix + rest)[|prefix + rest| - |last|..] == rest[|rest| - |last|..];
    }
  }

  /** The intended pack join ends with the last argument's text, whatever
      kind of argument it is, with no separator after it. */
  lemma CorrectedPackEndsWithLastArgument(args: seq<PackArg>)
    requires |args| >= 1
    ensures var joined := CommaSeparatedListFromPack(args);
      var last := args[|args| - 1].text;
      |joined| >= |last| && joined[|joined| - |last|..] == last
  {
    JoinEndsWithLast(Texts(args), SEPARATOR);
  }

  /** The summed length of the strings. */
  function TotalLength(strings: seq<string>): nat
  {
    if strings == [] then 0 else |strings[0]| + TotalLength(strings[1..])
  }

  /** Where element `k` starts in the joined string: after the elements
      before it and one separator after each of them. */
  function Offset(strings: seq<string>, separator: string, k: nat): nat
    requires k <= |strings|
  {
    TotalLength(strings[..k]) + k * |separator|
  }

  /** Appending one more string to the list adds a separator and the string
      to the end of the join, and nothing before it changes. */
  lemma {:induction false} JoinAppend(strings: seq<string>, s: string, separator: string)
    ensures Join(strings + [s], separator) == if strings == [] then s else Join(strings, separator) + separator + s
    decreases |strings|
  {
    if |strings| >= 2 {
      assert (strings + [s])[1..] == strings[1..] + [s];
      JoinAppend(strings[1..], s, separator);
    } else if |strings| == 1 {
      assert strings + [s] == [strings[0], s];
      assert [strings[0], s][1..] == [s];
    }
  }

  /** Offsets into the join of the tail are offsets into the join of the
      whole list, shifted by the head and one separator. */
  lemma OffsetOfTail(strings: seq<string>, separator: string, k: nat)
    requires 0 < k <= |strings|
    ensures Offset(strings, separator, k) == |strings[0]| + |separator| + Offset(strings[1..], separator, k - 1)
  {
    assert strings[..k][1..] == strings[1..][..k - 1];
  }

  lemma SliceAfterPrefix(prefix: string, s: string, i: nat, j: nat)
    requires i <= j <= |s|
    ensures (prefix + s)[|prefix| + i .. |prefix| + j] == s[i..j]
  {
  }

  /** Element `k` sits, unchanged, at Offset(k) of the join. So the elements
      keep their order in the joined string. */
  lemma {:induction false} ElementsInPlace(strings: seq<string>, separator: string, k: nat)
    requires k < |strings|
    ensures Offset(strings, separator, k) + |strings[k]| <= |Join(strings, separator)|
    ensures Join(strings, separator)[Offset(strings, separator, k) .. Offset(strings, separator, k) + |strings[k]|] == strings[k]
    decreases k
  {
    if k == 0 {
      assert strings[..0] == [];
    } else {
      var rest := strings[1..];
      var prefix := strings[0] + separator;
      var o := Offset(rest, separator, k - 1);
      ElementsInPlace(rest, separator, k - 1);
      OffsetOfTail(strings, separator, k);
      assert Join(strings, separator) == prefix + Join(rest, separator);
      SliceAfterPrefix(prefix, Join(rest, separator), o, o + |strings[k]|);
    }
  }

  /** Every element but the first is preceded by exactly one separator. With
      ElementsInPlace and the length in Join's contract, a separator lies
      between each consecutive pair and the join neither starts nor ends with
      one. */
  lemma {:induction false} SeparatorsBetween(strings: seq<string>, separator: string, k: nat)
    requires 0 < k < |strings|
    ensures |separator| <= Offset(strings, separator, k) <= |Join(strings, separator)|
    ensures Join(strings, separator)[Offset(strings, separator, k) - |separator| .. Offset(strings, separator, k)] == separator
    decreases k
  {
    var rest := strings[1..];
    var prefix := strings[0] + separator;
    var o := Offset(rest, separator, k - 1);
    OffsetOfTail(strings, separator, k);
    assert Join(strings, separator) == prefix + Join(rest, separator);
    if k == 1 {
      assert rest[..0] == [];
      assert o == 0;
    } else {
      SeparatorsBetween(rest, separator, k - 1);
      SliceAfterPrefix(prefix, Join(rest, separator), o - |separator|, o);
    }
  }

  /** MakeCommaSeparatedList: appends each string in turn, with the separator
      before every string but the first. The separator constant is defined
      outside this model and is a parameter here. */
  method MakeCommaSeparatedList(strings: seq<string>, commaSeparator: string) returns (result: string)
    ensures result == Join(strings, commaSeparator)
  {
    result := "";
    var mustAddSeparator := false;
    for i := 0 to |strings|
      invariant mustAddSeparator <==> i > 0
      invariant result == Join(strings[..i], commaSeparator)
    {
      JoinAppend(strings[..i], strings[i], commaSeparator);
      assert strings[..i + 1] == strings[..i] + [strings[i]];
      if mustAddSeparator {
        result := result + commaSeparator;
      }
      result := result + strings[i];
      mustAddSeparator := true;
    }
    assert strings[..|strings|] == strings;
  }
}
