/** What the fold of a port's commands means: the last command about a handle decides. */
module PortTable {
  import opened PortModel

  datatype Verdict = Absent | Present(callBack: CallBack)

  /** Reference: the latest of `commands` that concerns `handle` under `ty`. */
  function LastWord(commands: seq<Command>, ty: EventType, handle: Handle): Verdict {
    if commands == [] then Absent
    else
      var n := |commands| - 1;
      match commands[n]
      case Listen(t, h, callBack) => if t == ty && h == handle then Present(callBack) else LastWord(commands[..n], ty, handle)
      case Unlisten(t, h) => if t == ty && h == handle then Absent else LastWord(commands[..n], ty, handle)
      case UnlistenAll(h) => if h == handle then Absent else LastWord(commands[..n], ty, handle)
  }

  /** The table lists a handle with a callback exactly when that is the last word on it. */
  lemma {:induction false} FoldIsLastWord(commands: seq<Command>, ty: EventType, handle: Handle)
    ensures handle in Handles(Fold(commands), ty) <==> LastWord(commands, ty, handle).Present?
    ensures LastWord(commands, ty, handle).Present? ==>
              Fold(commands)[ty][handle] == LastWord(commands, ty, handle).callBack
  {
    if commands != [] {
      FoldIsLastWord(commands[..|commands| - 1], ty, handle);
    }
  }

  predicate Concerns(command: Command, ty: EventType, handle: Handle) {
    match command
    case Listen(t, h, _) => t == ty && h == handle
    case Unlisten(t, h) => t == ty && h == handle
    case UnlistenAll(h) => h == handle
  }

  /** A removed handle stays out until it is listened to again. */
  lemma {:induction false} UnlistenedStaysOut(commands: seq<Command>, k: nat, ty: EventType, handle: Handle)
    requires k < |commands| && !commands[k].Listen? && Concerns(commands[k], ty, handle)
    requires forall i :: k < i < |commands| ==> !(commands[i].Listen? && Concerns(commands[i], ty, handle))
    ensures handle !in Handles(Fold(commands), ty)
  {
    LastWordAbsent(commands, k, ty, handle);
    FoldIsLastWord(commands, ty, handle);
  }

  lemma {:induction false} LastWordAbsent(commands: seq<Command>, k: nat, ty: EventType, handle: Handle)
    requires k < |commands| && !commands[k].Listen? && Concerns(commands[k], ty, handle)
    requires forall i :: k < i < |commands| ==> !(commands[i].Listen? && Concerns(commands[i], ty, handle))
    ensures LastWord(commands, ty, handle) == Absent
  {
    if k < |commands| - 1 {
      LastWordAbsent(commands[..|commands| - 1], k, ty, handle);
    }
  }

  /** A type once listened to keeps its entry in the table. */
  lemma {:induction false} TypeStays(commands: seq<Command>, i: nat)
    requires i < |commands| && commands[i].Listen?
    ensures commands[i].ty in Fold(commands)
  {
    if i < |commands| - 1 {
      TypeStays(commands[..|commands| - 1], i);
    }
  }
}
