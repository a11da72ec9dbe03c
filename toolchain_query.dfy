/**
 * The listing printed by the Java toolchain query service: every installation
 * known to the installation registry becomes one line `* name (path)`, and the
 * lines are joined with a newline, in the registry's order.
 *
 * The registry is an input sequence: the query reads it and cannot change it.
 * Name and path are already-rendered text that the message pattern
 * `* {0} ({1})` inserts verbatim.
 */
module ToolchainQuery {

  /** One registry entry: its display name and its installation path. */
  datatype Installation = Installation(name: string, path: string)

  /** True when neither the name nor the path of `i` contains a line break. */
  predicate SingleLine(i: Installation) {
    '\n' !in i.name && '\n' !in i.path
  }

  /** The line that one installation contributes to the listing. */
  function Line(i: Installation): (r: string)
    ensures |r| == |i.name| + |i.path| + 5
    ensures r[..2] == "* " && r[|r| - 1] == ')'
    ensures r[2..2 + |i.name|] == i.name && r[|i.name| + 2..|i.name| + 4] == " ("
    ensures r[|i.name| + 4..|r| - 1] == i.path
    ensures SingleLine(i) ==> '\n' !in r
  {
    "* " + i.name + " (" + i.path + ")"
  }

  /** The installations mapped to their lines, one line per installation, in order. */
  function Rendered(installations: seq<Installation>): (r: seq<string>)
    ensures |r| == |installations|
    ensures forall k :: 0 <= k < |r| ==> r[k] == Line(installations[k])
  {
    seq(|installations|, k requires 0 <= k < |installations| => Line(installations[k]))
  }

  /** `query()`: the lines of all installations joined by "\n". */
  function Query(installations: seq<Installation>): (r: string)
    ensures r == "" <==> installations == []
    decreases |installations|
  {
    if |installations| == 0 then ""
    else if |installations| == 1 then Line(installations[0])
    else Line(installations[0]) + "\n" + Query(installations[1..])
  }

  /** Splits text at every '\n'; text without a line break is one piece. */
  function Split(s: string): (r: seq<string>)
    ensures |r| >= 1
    decreases |s|
  {
    if |s| == 0 then [""]
    else if s[0] == '\n' then [""] + Split(s[1..])
    else
      var rest := Split(s[1..]);
      [[s[0]] + rest[0]] + rest[1..]
  }

  /** The lines of a text: none for the empty text, otherwise the pieces between line breaks. */
  function LinesOf(s: string): seq<string> {
    if s == "" then [] else Split(s)
  }

  lemma {:induction false} SplitSingle(a: string)
    requires '\n' !in a
    ensures Split(a) == [a]
    decreases |a|
  {
    if |a| > 0 {
      SplitSingle(a[1..]);
      assert [a[0]] + a[1..] == a;
    }
  }

  lemma {:induction false} SplitFirst(a: string, b: string)
    requires '\n' !in a
    ensures Split(a + "\n" + b) == [a] + Split(b)
    decreases |a|
  {
    var s := a + "\n" + b;
    if |a| == 0 {
      assert s == "\n" + b;
      assert s[1..] == b;
    } else {
      assert s[1..] == a[1..] + "\n" + b;
      SplitFirst(a[1..], b);
      assert [a[0]] + a[1..] == a;
    }
  }

  /**
   * The listing begins with the first installation's line and ends with the
   * last installation's line: no leading or trailing separator.
   */
  lemma {:induction false} QueryEnds(installations: seq<Installation>)
    requires |installations| > 0
    ensures var r := Query(installations);
      |r| >= |Line(installations[0])| && r[..|Line(installations[0])|] == Line(installations[0]) &&
      |r| >= |Line(installations[|installations| - 1])| &&
      r[|r| - |Line(installations[|installations| - 1])|..] == Line(installations[|installations| - 1])
    decreases |installations|
  {
    if |installations| > 1 {
      var tail := installations[1..];
      QueryEnds(tail);
      assert tail[|tail| - 1] == installations[|installations| - 1];
    }
  }

  /** Listing two registries one after the other is their listings joined by one separator. */
  lemma {:induction false} QueryConcat(xs: seq<Installation>, ys: seq<Installation>)
    requires |xs| > 0 && |ys| > 0
    ensures Query(xs + ys) == Query(xs) + "\n" + Query(ys)
    decreases |xs|
  {
    var head := Line(xs[0]);
    assert (xs + ys)[0] == xs[0];
    if |xs| == 1 {
      assert (xs + ys)[1..] == ys;
      assert Query(xs + ys) == head + "\n" + Query(ys);
    } else {
      var rest := xs[1..];
      assert (xs + ys)[1..] == rest + ys;
      QueryConcat(rest, ys);
      calc {
        Query(xs + ys);
        head + "\n" + Query(rest + ys);
        head + "\n" + (Query(rest) + "\n" + Query(ys));
        (head + "\n" + Query(rest)) + "\n" + Query(ys);
        Query(xs) + "\n" + Query(ys);
      }
    }
  }

  /**
   * When no name or path holds a line break, splitting the listing into lines
   * gives back exactly the installations' lines, one per installation, in the
   * registry's order (none for an empty registry).
   */
  lemma {:induction false} QueryLines(installations: seq<Installation>)
    requires forall k :: 0 <= k < |installations| ==> SingleLine(installations[k])
    ensures LinesOf(Query(installations)) == Rendered(installations)
    decreases |installations|
  {
    if |installations| == 1 {
      SplitSingle(Line(installations[0]));
    } else if |installations| > 1 {
      var tail := installations[1..];
      QueryLines(tail);
      SplitFirst(Line(installations[0]), Query(tail));
      assert Rendered(installations) == [Line(installations[0])] + Rendered(tail);
    }
  }

  /** Consequence of QueryLines: the listing has one line per installation. */
  lemma LineCount(installations: seq<Installation>)
    requires forall k :: 0 <= k < |installations| ==> SingleLine(installations[k])
    ensures |LinesOf(Query(installations))| == |installations|
    ensures forall k :: 0 <= k < |installations| ==> LinesOf(Query(installations))[k] == Line(installations[k])
  {
    QueryLines(installations);
  }
}
