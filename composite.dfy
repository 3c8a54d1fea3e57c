/** Composite pattern: a composite keeps a set of child components and its operation
    concatenates each child's output followed by a newline, in the set's order. */
module Composite {
  import opened Sequences

  /** The three leaf classes of the demo. */
  datatype LeafKind = Leaf1 | Leaf2 | Leaf3

  /** A leaf's operation returns a fixed one-line text. */
  function LeafOperation(kind: LeafKind): (s: string)
    ensures |s| == 18 && '\n' !in s
    ensures s[..5] == "Leaf " && s[6..] == " - Operation"
  {
    match kind
    case Leaf1 => "Leaf 1 - Operation"
    case Leaf2 => "Leaf 2 - Operation"
    case Leaf3 => "Leaf 3 - Operation"
  }

  /** A leaf object; two leaves of the same class are still two distinct children. */
  class Leaf {
    const kind: LeafKind

    constructor (kind: LeafKind)
      ensures this.kind == kind
    {
      this.kind := kind;
    }

    function Operation(): (r: string)
      ensures |r| == 18 && '\n' !in r && r[..5] == "Leaf "
    {
      LeafOperation(kind)
    }
  }

  /** The outputs of the children, in the order they are visited. */
  function Outputs(order: seq<Leaf>): seq<string>
  {
    seq(|order|, i requires 0 <= i < |order| => order[i].Operation())
  }

  /** Each piece followed by a newline, concatenated left to right. */
  function Join(pieces: seq<string>): (r: string)
    ensures r == "" <==> pieces == []
    ensures r != "" ==> r[|r| - 1] == '\n'
  {
    if pieces == [] then "" else pieces[0] + "\n" + Join(pieces[1..])
  }

  /** Appending one more piece to a join appends it and its newline at the end. */
  lemma {:induction false} JoinAppend(pieces: seq<string>, p: string)
    ensures Join(pieces + [p]) == Join(pieces) + p + "\n"
  {
    if pieces == [] {
      assert [] + [p] == [p];
      assert Join([p][1..]) == "";
    } else {
      assert (pieces + [p])[1..] == pieces[1..] + [p];
      JoinAppend(pieces[1..], p);
    }
  }

  /** The sum of the lengths of the pieces. */
  function TotalLength(pieces: seq<string>): nat
  {
    if pieces == [] then 0 else |pieces[0]| + TotalLength(pieces[1..])
  }

  /** A composite's output is as long as its children's outputs together, plus one
      newline per child. */
  lemma {:induction false} JoinLength(pieces: seq<string>)
    ensures |Join(pieces)| == TotalLength(pieces) + |pieces|
  {
    if pieces != [] {
      JoinLength(pieces[1..]);
    }
  }

  /** The position of the first newline in `s`, or `|s|` if there is none. */
  function NewlineIndex(s: string): (i: nat)
    ensures i <= |s| && '\n' !in s[..i]
    ensures i < |s| ==> s[i] == '\n'
  {
    if s == [] then 0
    else if s[0] == '\n' then 0
    else
      var j := NewlineIndex(s[1..]);
      assert s[..j + 1] == [s[0]] + s[1..][..j];
      j + 1
  }

  /** Reads newline-terminated lines back from a text (a last unterminated piece, if
      any, counts as a line). */
  function Lines(s: string): seq<string>
    decreases |s|
  {
    if s == [] then []
    else
      var i := NewlineIndex(s);
      if i == |s| then [s] else [s[..i]] + Lines(s[i + 1..])
  }

  /** No piece contains a newline, so the pieces can be read back from their join:
      each child's output appears once, as a line of its own. */
  lemma {:induction false} LinesOfJoin(pieces: seq<string>)
    requires forall k :: 0 <= k < |pieces| ==> '\n' !in pieces[k]
    ensures Lines(Join(pieces)) == pieces
  {
    LinesOfJoinThen(pieces, "");
    assert Join(pieces) + "" == Join(pieces);
  }

  /** Text after a join is read back after the pieces: printing the join adds one
      more newline, and so one empty last line. */
  lemma {:induction false} LinesOfJoinThen(pieces: seq<string>, tail: string)
    requires forall k :: 0 <= k < |pieces| ==> '\n' !in pieces[k]
    ensures Lines(Join(pieces) + tail) == pieces + Lines(tail)
  {
    if pieces == [] {
      assert Join(pieces) + tail == tail;
    } else {
      var p, rest := pieces[0], Join(pieces[1..]) + tail;
      calc {
        Lines(Join(pieces) + tail);
        { JoinThen(pieces, tail); }
        Lines(p + "\n" + rest);
        { LinesCons(p, rest); }
        [p] + Lines(rest);
        { LinesOfJoinThen(pieces[1..], tail); }
        [p] + (pieces[1..] + Lines(tail));
        { HeadOfAppend(pieces, Lines(tail)); }
        pieces + Lines(tail);
      }
    }
  }

  /** What `print` writes for a join: the pieces as lines, then the empty line after
      the extra newline that `print` adds. */
  lemma LinesOfPrinted(pieces: seq<string>)
    requires forall k :: 0 <= k < |pieces| ==> '\n' !in pieces[k]
    ensures Lines(Join(pieces) + "\n") == pieces + [""]
  {
    LinesOfJoinThen(pieces, "\n");
    assert NewlineIndex("\n") == 0;
    assert "\n"[1..] == "";
  }

  /** A join followed by more text is the first piece, a newline, then the join of the
      other pieces followed by that text. */
  lemma JoinThen(pieces: seq<string>, tail: string)
    requires pieces != []
    ensures Join(pieces) + tail == pieces[0] + "\n" + (Join(pieces[1..]) + tail)
  {
  }

  /** A line without a newline, then a newline, is read back as that line first. */
  lemma LinesCons(p: string, rest: string)
    requires '\n' !in p
    ensures Lines(p + "\n" + rest) == [p] + Lines(rest)
  {
    var s := p + "\n" + rest;
    assert NewlineIndex(s) == |p| by {
      assert s[|p|] == '\n';
      assert forall k :: 0 <= k < |p| ==> s[k] == p[k];
      assert forall j :: |p| < j <= |s| ==> s[..j][|p|] == '\n';
    }
    assert s[..|p|] == p;
    assert s[|p| + 1..] == rest;
  }

  /** A composite: its children form a set of leaf objects. */
  class Composite {
    var children: set<Leaf>

    /** A fresh composite has no children. */
    constructor ()
      ensures children == {}
    {
      children := {};
    }

    /** Adds a child; adding one already present changes nothing. */
    method Add(component: Leaf)
      modifies this
      ensures children == old(children) + {component}
    {
      children := children + {component};
    }

    /** Removes a child; removing one that is absent is not an error. */
    method Remove(component: Leaf)
      modifies this
      ensures children == old(children) - {component}
    {
      children := children - {component};
    }

    /** Concatenates each child's output followed by a newline. The children are
        visited once each in the set's (unspecified) order, recorded in `order`. */
    method Operation() returns (orderLeaf: string, ghost order: seq<Leaf>)
      ensures Distinct(order) && Elements(order) == children
      ensures orderLeaf == Join(Outputs(order))
      ensures Lines(orderLeaf) == Outputs(order)
      ensures |orderLeaf| == TotalLength(Outputs(order)) + |children|
      ensures children == {} ==> orderLeaf == ""
    {
      var remaining := children;
      orderLeaf, order := "", [];
      while remaining != {}
        invariant remaining <= children
        invariant Distinct(order)
        invariant forall c :: c in order <==> c in children && c !in remaining
        invariant orderLeaf == Join(Outputs(order))
        decreases remaining
      {
        var child :| child in remaining;
        JoinAppend(Outputs(order), child.Operation());
        assert Outputs(order + [child]) == Outputs(order) + [child.Operation()];
        orderLeaf := orderLeaf + child.Operation() + "\n";
        order := order + [child];
        remaining := remaining - {child};
      }
      assert Elements(order) == children;
      LinesOfJoin(Outputs(order));
      JoinLength(Outputs(order));
      DistinctCardinality(order);
    }
  }

  /** The demo script: three leaves added to a composite, and the composite's text
      printed. `print` adds a newline after the text's own last one, so the output has
      the three leaf lines, in an order the model leaves open, then an empty line. */
  method Demo() returns (output: string)
    ensures |Lines(output)| == 4 && Lines(output)[3] == ""
    ensures LeafOperation(Leaf1) in Lines(output)[..3]
    ensures LeafOperation(Leaf2) in Lines(output)[..3]
    ensures LeafOperation(Leaf3) in Lines(output)[..3]
  {
    var leaf1 := new Leaf(Leaf1);
    var leaf2 := new Leaf(Leaf2);
    var leaf3 := new Leaf(Leaf3);
    var composite := new Composite();
    composite.Add(leaf1);
    composite.Add(leaf2);
    composite.Add(leaf3);
    var text;
    ghost var order;
    text, order := composite.Operation();
    output := text + "\n";
    ghost var outs := Outputs(order);
    assert |outs| == 3 by {
      assert |composite.children| == 3;
      DistinctCardinality(order);
    }
    LinesOfPrinted(outs);
    ghost var lines := Lines(output);
    assert lines == outs + [""];
    assert lines[..3] == outs;
    ghost var i1 :| 0 <= i1 < |order| && order[i1] == leaf1;
    ghost var i2 :| 0 <= i2 < |order| && order[i2] == leaf2;
    ghost var i3 :| 0 <= i3 < |order| && order[i3] == leaf3;
    assert outs[i1] == LeafOperation(Leaf1);
    assert outs[i2] == LeafOperation(Leaf2);
    assert outs[i3] == LeafOperation(Leaf3);
  }
}
