/** Command pattern: an invoker keeps commands in insertion order and replays them
    through a cursor that `Redo` and `Undo` move one step at a time. */
module Command {

  /** The receivers of the demo; each knows one action. */
  datatype Receiver = Receiver1 | Receiver2 | Receiver3

  /** The line a receiver's action writes to the console. */
  function Action(r: Receiver): string
  {
    match r
    case Receiver1 => "Receiver 1 Action"
    case Receiver2 => "Receiver 2 Action"
    case Receiver3 => "Receiver 3 Action"
  }

  /** Different receivers write different lines, so a console trace tells which receiver acted. */
  lemma ActionIdentifiesReceiver(a: Receiver, b: Receiver)
    ensures Action(a) == Action(b) <==> a == b
  {
  }

  /** A command bound to the receiver whose action it triggers. */
  datatype ConcreteCommand = ConcreteCommand(receiver: Receiver)

  /** Executing a command runs its receiver's action; the result is the line written. */
  function Execute(c: ConcreteCommand): string
  {
    Action(c.receiver)
  }

  /** What one call of `Redo` or `Undo` does after moving the cursor: the line the
      executed command writes, or the IndexError raised by indexing past the end. */
  datatype Execution = Executed(line: string) | IndexError

  /** Executing the command at index `i` of the list: Python indexing raises when `i` is
      past the end (the cursor is never negative, so wrap-around indexing never occurs). */
  function ExecuteAt(commands: seq<ConcreteCommand>, i: nat): (e: Execution)
    ensures e.Executed? <==> i < |commands|
    ensures i < |commands| ==> e.line == Execute(commands[i])
  {
    if i < |commands| then Executed(Execute(commands[i])) else IndexError
  }

  /** The cursor after `Redo` on a list of `count` commands: it stays on the last
      command and otherwise advances by one. */
  function RedoCursor(count: nat, pos: nat): nat
  {
    if pos == count - 1 then pos else pos + 1
  }

  /** The cursor after `Undo`: it stays on the first command and otherwise goes back by one. */
  function UndoCursor(pos: nat): nat
  {
    if pos == 0 then 0 else pos - 1
  }

  /** With a non-empty list and the cursor in range, one `Redo` or `Undo` keeps the
      cursor in range and succeeds in executing the command it lands on. */
  lemma CursorStaysInRange(count: nat, pos: nat)
    requires pos < count
    ensures RedoCursor(count, pos) < count && UndoCursor(pos) < count
    ensures RedoCursor(count, pos) == pos <==> pos == count - 1
    ensures UndoCursor(pos) == pos <==> pos == 0
  {
  }

  /** On an empty invoker both operations fail: `Redo` first moves the cursor one past
      where it was, `Undo` indexes element 0. */
  lemma EmptyInvokerRaises(pos: nat)
    ensures RedoCursor(0, pos) == pos + 1 && ExecuteAt([], RedoCursor(0, pos)) == IndexError
    ensures pos == 0 ==> UndoCursor(pos) == 0 && ExecuteAt([], UndoCursor(pos)) == IndexError
  {
  }

  /** Away from the ends, `Undo` takes back a `Redo` and `Redo` takes back an `Undo`. */
  lemma UndoRedoInverse(count: nat, pos: nat)
    ensures pos + 1 < count ==> UndoCursor(RedoCursor(count, pos)) == pos
    ensures 0 < pos < count ==> RedoCursor(count, UndoCursor(pos)) == pos
  {
  }

  /** The two cursor moves an invoker's user can request. */
  datatype Move = Redo | Undo

  /** The cursor after one move. */
  function Moved(count: nat, pos: nat, m: Move): nat
  {
    match m
    case Redo => RedoCursor(count, pos)
    case Undo => UndoCursor(pos)
  }

  /** The executions and the final cursor of a series of moves from cursor `pos`. */
  function Replay(commands: seq<ConcreteCommand>, pos: nat, moves: seq<Move>): (seq<Execution>, nat)
    decreases |moves|
  {
    if moves == [] then ([], pos)
    else
      var next := Moved(|commands|, pos, moves[0]);
      var rest := Replay(commands, next, moves[1..]);
      ([ExecuteAt(commands, next)] + rest.0, rest.1)
  }

  /** From a cursor in range, every move of any series executes exactly one command
      without raising, and the cursor ends in range. */
  lemma {:induction false} ReplayNeverRaises(commands: seq<ConcreteCommand>, pos: nat, moves: seq<Move>)
    requires pos < |commands|
    ensures |Replay(commands, pos, moves).0| == |moves|
    ensures Replay(commands, pos, moves).1 < |commands|
    ensures forall k :: 0 <= k < |moves| ==> Replay(commands, pos, moves).0[k].Executed?
    decreases |moves|
  {
    if moves != [] {
      var next := Moved(|commands|, pos, moves[0]);
      CursorStaysInRange(|commands|, pos);
      ReplayNeverRaises(commands, next, moves[1..]);
      var rest := Replay(commands, next, moves[1..]);
      assert Replay(commands, pos, moves).0 == [ExecuteAt(commands, next)] + rest.0;
    }
  }

  /** Holds the commands in insertion order and the cursor `pos`. */
  class Invoker {
    var commands: seq<ConcreteCommand>
    var pos: nat

    /** A fresh invoker has no commands and its cursor on 0. */
    constructor ()
      ensures commands == [] && pos == 0
    {
      commands := [];
      pos := 0;
    }

    /** Appends a command at the end; the cursor and the earlier commands stay. */
    method StoreCommand(command: ConcreteCommand)
      modifies this
      ensures commands == old(commands) + [command]
      ensures pos == old(pos)
      ensures old(pos) <= old(|commands|) ==> pos < |commands|
    {
      commands := commands + [command];
    }

    /** Executes every stored command once, in insertion order, whatever the cursor. */
    method ExecuteCommands() returns (lines: seq<string>)
      ensures |lines| == |commands|
      ensures forall i :: 0 <= i < |commands| ==> lines[i] == Execute(commands[i])
    {
      lines := [];
      for i := 0 to |commands|
        invariant |lines| == i
        invariant forall k :: 0 <= k < i ==> lines[k] == Execute(commands[k])
      {
        lines := lines + [Execute(commands[i])];
      }
    }

    /** Moves the cursor forward unless it is on the last command, then executes the
        command under the cursor (raising IndexError when there is none). */
    method Redo() returns (e: Execution)
      modifies this
      ensures commands == old(commands)
      ensures pos == RedoCursor(|commands|, old(pos))
      ensures e == ExecuteAt(commands, pos)
      ensures old(pos) < |commands| ==> pos < |commands| && e.Executed?
    {
      if pos == |commands| - 1 {
        e := ExecuteAt(commands, pos);
      } else {
        pos := pos + 1;
        e := ExecuteAt(commands, pos);
      }
    }

    /** Moves the cursor back unless it is on the first command, then executes the
        command under the cursor (raising IndexError when there is none). */
    method Undo() returns (e: Execution)
      modifies this
      ensures commands == old(commands)
      ensures pos == UndoCursor(old(pos))
      ensures e == ExecuteAt(commands, pos)
      ensures old(pos) < |commands| ==> pos < |commands| && e.Executed?
    {
      if pos == 0 {
        e := ExecuteAt(commands, pos);
      } else {
        pos := pos - 1;
        e := ExecuteAt(commands, pos);
      }
    }
  }

  /** Requests a series of moves from an invoker, one `Redo` or `Undo` call per move.
      The executions and the final cursor are those of `Replay`, so the lemmas about
      `Replay` hold of the invoker itself. */
  method Play(inv: Invoker, moves: seq<Move>) returns (es: seq<Execution>)
    modifies inv
    ensures inv.commands == old(inv.commands)
    ensures (es, inv.pos) == Replay(old(inv.commands), old(inv.pos), moves)
  {
    es := [];
    ghost var commands, start := inv.commands, inv.pos;
    assert moves[0..] == moves;
    assert [] + Replay(commands, start, moves).0 == Replay(commands, start, moves).0;
    for i := 0 to |moves|
      invariant inv.commands == commands
      invariant Replay(commands, start, moves)
        == (es + Replay(commands, inv.pos, moves[i..]).0, Replay(commands, inv.pos, moves[i..]).1)
    {
      ghost var p := inv.pos;
      ghost var rest := Replay(commands, Moved(|commands|, p, moves[i]), moves[i + 1..]);
      assert moves[i..][1..] == moves[i + 1..];
      var e;
      if moves[i] == Redo {
        e := inv.Redo();
      } else {
        e := inv.Undo();
      }
      assert Replay(commands, p, moves[i..]) == ([e] + rest.0, rest.1);
      assert es + ([e] + rest.0) == (es + [e]) + rest.0;
      es := es + [e];
    }
    assert moves[|moves|..] == [];
    assert es + Replay(commands, inv.pos, []).0 == es;
  }

  /** The demo script: three commands, three redos, three undos, then all commands. */
  method Demo() returns (output: seq<string>)
    ensures output == [
      "Receiver 2 Action", "Receiver 3 Action", "Receiver 3 Action",
      "Receiver 2 Action", "Receiver 1 Action", "Receiver 1 Action",
      "ALL COMMANDS: ",
      "Receiver 1 Action", "Receiver 2 Action", "Receiver 3 Action"]
  {
    var invoker := new Invoker();
    invoker.StoreCommand(ConcreteCommand(Receiver1));
    invoker.StoreCommand(ConcreteCommand(Receiver2));
    invoker.StoreCommand(ConcreteCommand(Receiver3));
    var e1 := invoker.Redo();
    var e2 := invoker.Redo();
    var e3 := invoker.Redo();
    var e4 := invoker.Undo();
    var e5 := invoker.Undo();
    var e6 := invoker.Undo();
    output := [e1.line, e2.line, e3.line, e4.line, e5.line, e6.line];
    var all := invoker.ExecuteCommands();
    output := output + ["ALL COMMANDS: "] + all;
  }
}
