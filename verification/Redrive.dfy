/** The `redrive` command: move messages from a dead-letter queue back to its queue. */
module Redrive {
  import opened Base
  import Consumer

  datatype Message = Message(messageId: Option<nat>, content: Consumer.Message, redrivenFrom: Option<string>)

  type Queues = map<string, seq<Message>>

  const SUFFIX := ".dlq"

  predicate IsDlqName(name: string) {
    |name| >= |SUFFIX| && name[|name| - |SUFFIX|..] == SUFFIX
  }

  /** The queue name without its `.dlq` suffix; a name without the suffix stays what it is. */
  function TargetQueue(name: string): (target: string)
    ensures IsDlqName(name) <==> target != name
    ensures IsDlqName(name) ==> name == target + SUFFIX
  {
    if IsDlqName(name) then name[..|name| - |SUFFIX|] else name
  }

  function Stamp(m: Message, source: string): Message {
    m.(redrivenFrom := Some(source))
  }

  /** `sendToQueue` goes through the default exchange, which drops what has no queue. */
  function Send(queues: Queues, target: string, m: Message): Queues {
    if target in queues then queues[target := queues[target] + [m]] else queues
  }

  /** What one turn of the loop meets: all goes well; the send throws; the ack throws after the send;
      the process dies before, or after, the send. An unacked message goes back to the front. */
  datatype Turn = Moves | SendThrows | AckThrows | DiesBeforeSend | DiesAfterSend

  predicate Dies(t: Turn) {
    t.DiesBeforeSend? || t.DiesAfterSend?
  }

  /** The turns in which a message is sent and yet stays in the dead-letter queue. */
  predicate Duplicates(t: Turn) {
    t.AckThrows? || t.DiesAfterSend?
  }

  function AfterTurn(queues: Queues, source: string, t: Turn): (after: Queues)
    requires source in queues && queues[source] != []
    ensures after.Keys == queues.Keys
  {
    var m := queues[source][0];
    var taken := queues[source := queues[source][1..]];
    match t
    case Moves => Send(taken, TargetQueue(source), Stamp(m, source))
    case SendThrows => queues
    case DiesBeforeSend => queues
    case AckThrows => Returned(Send(taken, TargetQueue(source), Stamp(m, source)), source, m)
    case DiesAfterSend => Returned(Send(taken, TargetQueue(source), Stamp(m, source)), source, m)
  }

  function Returned(queues: Queues, source: string, m: Message): Queues
    requires source in queues
  {
    queues[source := [m] + queues[source]]
  }

  /** `finished`: the loop ended by itself, because the count was reached or the queue was empty. */
  datatype Progress = Progress(queues: Queues, redriven: nat, failed: nat, finished: bool)

  /** The loop, for as many turns as are given or until it ends. `maxCount = None` stands for "all". */
  function Loop(queues: Queues, source: string, maxCount: Option<nat>, turns: seq<Turn>): (p: Progress)
    requires source in queues
    ensures p.queues.Keys == queues.Keys
    decreases |turns|
  {
    if maxCount == Some(0) || queues[source] == [] then Progress(queues, 0, 0, true)
    else if turns == [] then Progress(queues, 0, 0, false)
    else
      var after := AfterTurn(queues, source, turns[0]);
      if Dies(turns[0]) then Progress(after, 0, 0, false)
      else
        var moved := turns[0].Moves?;
        var left := if moved && maxCount.Some? then Some(maxCount.value - 1) else maxCount;
        var rest := Loop(after, source, left, turns[1..]);
        rest.(redriven := rest.redriven + (if moved then 1 else 0), failed := rest.failed + if moved then 0 else 1)
  }

  /** One turn of the loop, in the middle of the turns. */
  lemma {:induction false} LoopFrom(queues: Queues, source: string, maxCount: Option<nat>, turns: seq<Turn>, k: nat)
    requires source in queues && queues[source] != [] && maxCount != Some(0) && k < |turns|
    ensures var after := AfterTurn(queues, source, turns[k]); var moved := turns[k].Moves?;
      var left := if moved && maxCount.Some? then Some(maxCount.value - 1) else maxCount;
      var here := Loop(queues, source, maxCount, turns[k..]);
      if Dies(turns[k]) then here == Progress(after, 0, 0, false)
      else
        var rest := Loop(after, source, left, turns[k + 1..]);
        here == rest.(redriven := rest.redriven + (if moved then 1 else 0),
                      failed := rest.failed + if moved then 0 else 1)
  {
    hide AfterTurn;
    assert turns[k..][1..] == turns[k + 1..];
  }

  lemma {:induction false} LoopEnds(queues: Queues, source: string, maxCount: Option<nat>, turns: seq<Turn>)
    requires source in queues && (queues[source] == [] || maxCount == Some(0) || turns == [])
    ensures Loop(queues, source, maxCount, turns) == Progress(queues, 0, 0, queues[source] == [] || maxCount == Some(0))
  {
  }

  // ---------------------------------------------------------------- conservation

  /** What identifies a message: everything but the header that redriving adds. */
  datatype Core = Core(messageId: Option<nat>, content: Consumer.Message)

  function Cores(s: seq<Message>): multiset<Core> {
    if s == [] then multiset{} else multiset{CoreOf(s[0])} + Cores(s[1..])
  }

  lemma {:induction false} CoresConcat(s: seq<Message>, t: seq<Message>)
    ensures Cores(s + t) == Cores(s) + Cores(t)
  {
    if s == [] {
      assert s + t == t;
    } else {
      assert (s + t)[1..] == s[1..] + t;
      CoresConcat(s[1..], t);
    }
  }

  function CoreOf(m: Message): Core {
    Core(m.messageId, m.content)
  }

  lemma {:induction false} CoresEnds(m: Message, s: seq<Message>)
    ensures Cores([m] + s) == multiset{CoreOf(m)} + Cores(s)
    ensures Cores(s + [m]) == Cores(s) + multiset{CoreOf(m)}
  {
    assert [m][1..] == [];
    CoresConcat([m], s);
    CoresConcat(s, [m]);
  }

  /** The messages of a queue and its target together. */
  function Held(queues: Queues, source: string): multiset<Core>
    requires source in queues
  {
    var target := TargetQueue(source);
    Cores(queues[source]) + if target in queues && target != source then Cores(queues[target]) else multiset{}
  }

  function HeadCore(queues: Queues, source: string): multiset<Core>
    requires source in queues && queues[source] != []
  {
    multiset{CoreOf(queues[source][0])}
  }

  predicate Sends(t: Turn) {
    t.Moves? || Duplicates(t)
  }

  /** What one turn leaves in the dead-letter queue and in a target queue of its own. */
  lemma {:induction false} TurnContents(queues: Queues, source: string, t: Turn)
    requires source in queues && queues[source] != []
    requires TargetQueue(source) != source
    ensures var after := AfterTurn(queues, source, t); var target := TargetQueue(source);
      && after[source] == (if t.Moves? then queues[source][1..] else queues[source])
      && (target in queues ==>
            after[target] == queues[target] + if Sends(t) then [Stamp(queues[source][0], source)] else [])
      && forall q :: q in queues && q != source && q != target ==> after[q] == queues[q]
  {
    hide TargetQueue, IsDlqName;
    assert [queues[source][0]] + queues[source][1..] == queues[source];
    if !Sends(t) && TargetQueue(source) in queues {
      assert queues[TargetQueue(source)] + [] == queues[TargetQueue(source)];
    }
  }

  /** What one turn leaves in a queue that is its own target. */
  lemma {:induction false} OwnTurnContents(queues: Queues, source: string, t: Turn)
    requires source in queues && queues[source] != []
    requires TargetQueue(source) == source
    ensures var after := AfterTurn(queues, source, t); var m := queues[source][0];
      after[source] == (if t.Moves? then queues[source][1..] else queues[source])
                       + if Sends(t) then [Stamp(m, source)] else []
  {
    hide TargetQueue, IsDlqName;
    var m, rest := queues[source][0], queues[source][1..];
    assert [m] + rest == queues[source];
    if Duplicates(t) {
      assert [m] + (rest + [Stamp(m, source)]) == queues[source] + [Stamp(m, source)];
    } else if !Sends(t) {
      assert queues[source] + [] == queues[source];
    }
  }

  /** One turn: with a target queue nothing is ever lost, and exactly the turns that send without
      acking add a second copy. Without one, exactly a turn that moves loses its message. */
  lemma {:induction false} TurnConserves(queues: Queues, source: string, t: Turn)
    requires source in queues && queues[source] != []
    ensures var after := AfterTurn(queues, source, t); var head := HeadCore(queues, source);
      if TargetQueue(source) in queues then
        Held(after, source) == Held(queues, source) + if Duplicates(t) then head else multiset{}
      else
        Held(after, source) + (if t.Moves? then head else multiset{}) == Held(queues, source)
  {
    hide AfterTurn, TargetQueue, IsDlqName, Cores, CoreOf, Stamp;
    if TargetQueue(source) == source {
      OwnTurnConserves(queues, source, t);
    } else {
      OtherTurnConserves(queues, source, t);
    }
  }

  lemma {:induction false} OwnTurnConserves(queues: Queues, source: string, t: Turn)
    requires source in queues && queues[source] != [] && TargetQueue(source) == source
    ensures Held(AfterTurn(queues, source, t), source)
      == Held(queues, source) + if Duplicates(t) then HeadCore(queues, source) else multiset{}
  {
    hide AfterTurn, TargetQueue, IsDlqName, Cores;
    var m, rest := queues[source][0], queues[source][1..];
    assert queues[source] == [m] + rest;
    OwnTurnContents(queues, source, t);
    CoresEnds(m, rest);
    CoresEnds(Stamp(m, source), rest);
    CoresEnds(Stamp(m, source), queues[source]);
    if !Sends(t) {
      assert queues[source] + [] == queues[source];
    }
  }

  lemma {:induction false} OtherTurnConserves(queues: Queues, source: string, t: Turn)
    requires source in queues && queues[source] != [] && TargetQueue(source) != source
    ensures var after := AfterTurn(queues, source, t); var head := HeadCore(queues, source);
      if TargetQueue(source) in queues then
        Held(after, source) == Held(queues, source) + if Duplicates(t) then head else multiset{}
      else
        Held(after, source) + (if t.Moves? then head else multiset{}) == Held(queues, source)
  {
    hide AfterTurn, TargetQueue, IsDlqName, Cores;
    var m, rest, target := queues[source][0], queues[source][1..], TargetQueue(source);
    assert queues[source] == [m] + rest;
    CoresEnds(m, rest);
    TurnContents(queues, source, t);
    if target in queues {
      CoresEnds(Stamp(m, source), queues[target]);
      if !Sends(t) {
        assert queues[target] + [] == queues[target];
      }
    }
  }

  /** How many of the turns the loop got to duplicate. */
  function DuplicatesIn(turns: seq<Turn>): nat {
    if turns == [] then 0 else (if Duplicates(turns[0]) then 1 else 0) + DuplicatesIn(turns[1..])
  }

  /** At every boundary of the loop nothing is lost; without a turn that duplicates, the messages of
      both queues together are exactly the same. */
  lemma {:induction false} RedriveConserves(queues: Queues, source: string, maxCount: Option<nat>, turns: seq<Turn>)
    requires source in queues && TargetQueue(source) in queues
    ensures var after := Loop(queues, source, maxCount, turns).queues;
      && Held(queues, source) <= Held(after, source)
      && (DuplicatesIn(turns) == 0 ==> Held(after, source) == Held(queues, source))
    decreases |turns|
  {
    hide TargetQueue, IsDlqName, AfterTurn, Held, HeadCore;
    if maxCount != Some(0) && queues[source] != [] && turns != [] {
      TurnConserves(queues, source, turns[0]);
      if !Dies(turns[0]) {
        var left := if turns[0].Moves? && maxCount.Some? then Some(maxCount.value - 1) else maxCount;
        RedriveConserves(AfterTurn(queues, source, turns[0]), source, left, turns[1..]);
      }
    }
  }

  predicate AllMove(turns: seq<Turn>) {
    forall k :: 0 <= k < |turns| ==> turns[k].Moves?
  }

  function Stamped(s: seq<Message>, source: string): (r: seq<Message>)
    ensures |r| == |s| && forall k :: 0 <= k < |s| ==> r[k] == Stamp(s[k], source)
  {
    seq(|s|, k requires 0 <= k < |s| => Stamp(s[k], source))
  }

  function Moved(maxCount: Option<nat>, length: nat): nat {
    if maxCount.Some? && maxCount.value < length then maxCount.value else length
  }

  lemma {:induction false} StampedFront(s: seq<Message>, n: nat, source: string)
    requires 0 < n <= |s|
    ensures Stamped(s[..n], source) == [Stamp(s[0], source)] + Stamped(s[1..][..n - 1], source)
  {
  }

  /** Whatever fails, no queue but these two is touched. */
  lemma {:induction false} OtherQueuesUntouched(queues: Queues, source: string, maxCount: Option<nat>,
          turns: seq<Turn>, q: string)
    requires source in queues && q in queues && q != source && q != TargetQueue(source)
    ensures Loop(queues, source, maxCount, turns).queues[q] == queues[q]
    decreases |turns|
  {
    hide TargetQueue, IsDlqName;
    if maxCount != Some(0) && queues[source] != [] && turns != [] && !Dies(turns[0]) {
      var left := if turns[0].Moves? && maxCount.Some? then Some(maxCount.value - 1) else maxCount;
      OtherQueuesUntouched(AfterTurn(queues, source, turns[0]), source, left, turns[1..], q);
    }
  }

  // ---------------------------------------------------------------- when it ends

  /** How many messages have to be moved before the loop ends. A queue that is its own target never gets
      shorter, so only the count can end it. */
  function Goal(queues: Queues, source: string, maxCount: Option<nat>): Option<nat>
    requires source in queues
  {
    if queues[source] == [] then Some(0)
    else if TargetQueue(source) == source then maxCount
    else Some(Moved(maxCount, |queues[source]|))
  }

  /** The turns that move a message, up to the one in which the process dies. */
  function MovesIn(turns: seq<Turn>): nat {
    if turns == [] || Dies(turns[0]) then 0 else (if turns[0].Moves? then 1 else 0) + MovesIn(turns[1..])
  }

  /** One turn brings the goal nearer by one exactly when it moves a message. */
  lemma {:induction false} TurnGoal(queues: Queues, source: string, maxCount: Option<nat>, t: Turn)
    requires source in queues && queues[source] != [] && maxCount != Some(0)
    ensures var after := AfterTurn(queues, source, t);
      var left := if t.Moves? && maxCount.Some? then Some(maxCount.value - 1) else maxCount;
      var goal, next := Goal(queues, source, maxCount), Goal(after, source, left);
      && (goal.Some? <==> next.Some?)
      && (goal.Some? ==> goal.value > 0 && next.value == goal.value - (if t.Moves? then 1 else 0))
      && (TargetQueue(source) != source ==> after[source] == if t.Moves? then queues[source][1..] else queues[source])
  {
    hide AfterTurn, TargetQueue, IsDlqName;
    if TargetQueue(source) == source {
      OwnTurnContents(queues, source, t);
    } else {
      TurnContents(queues, source, t);
    }
  }

  /** The loop, exactly, whatever each turn meets: how many messages it redrives, what is left in the
      dead-letter queue, and whether it ends. It ends if and only if the goal is finite and that many
      turns move a message before the process dies; a send that keeps throwing is retried forever. */
  lemma {:induction false} RedriveEndsIff(queues: Queues, source: string, maxCount: Option<nat>, turns: seq<Turn>)
    requires source in queues
    ensures var p := Loop(queues, source, maxCount, turns); var goal := Goal(queues, source, maxCount);
      && p.redriven == (if goal.Some? && goal.value < MovesIn(turns) then goal.value else MovesIn(turns))
      && (p.finished <==> goal.Some? && goal.value <= MovesIn(turns))
      && (TargetQueue(source) != source ==>
        p.redriven <= |queues[source]| && p.queues[source] == queues[source][p.redriven..])
    decreases |turns|
  {
    hide AfterTurn, TargetQueue, IsDlqName, Goal;
    if maxCount == Some(0) || queues[source] == [] || turns == [] {
      LoopEnds(queues, source, maxCount, turns);
      GoalReached(queues, source, maxCount);
    } else {
      TurnGoal(queues, source, maxCount, turns[0]);
      if !Dies(turns[0]) {
        var left := if turns[0].Moves? && maxCount.Some? then Some(maxCount.value - 1) else maxCount;
        RedriveEndsIff(AfterTurn(queues, source, turns[0]), source, left, turns[1..]);
      }
    }
  }

  lemma {:induction false} GoalReached(queues: Queues, source: string, maxCount: Option<nat>)
    requires source in queues
    ensures Goal(queues, source, maxCount) == Some(0) <==> maxCount == Some(0) || queues[source] == []
  {
    hide TargetQueue, IsDlqName;
  }

  /** Turns that all move append the messages, oldest first, to the end of the target queue. */
  lemma {:induction false} MovesAppend(queues: Queues, source: string, maxCount: Option<nat>, turns: seq<Turn>)
    requires source in queues && TargetQueue(source) in queues && TargetQueue(source) != source && AllMove(turns)
    ensures var target := TargetQueue(source); var p := Loop(queues, source, maxCount, turns);
      && p.failed == 0 && p.redriven <= |queues[source]|
      && p.queues[target] == queues[target] + Stamped(queues[source][..p.redriven], source)
    decreases |turns|
  {
    hide AfterTurn, TargetQueue, IsDlqName, Stamped, Stamp;
    var target := TargetQueue(source);
    if maxCount == Some(0) || queues[source] == [] || turns == [] {
      LoopEnds(queues, source, maxCount, turns);
      NothingStamped(queues[source], queues[target], source);
    } else {
      var left := if maxCount.Some? then Some(maxCount.value - 1) else maxCount;
      assert turns[0].Moves?;
      TurnContents(queues, source, Moves);
      var after := AfterTurn(queues, source, Moves);
      MovesAppend(after, source, left, turns[1..]);
      OneMoreStamped(queues[source], queues[target], Loop(after, source, left, turns[1..]).redriven, source);
    }
  }

  /** A copy of the message with its id and content, stamped with the queue it was redriven from. */
  predicate StampedCopy(m: Message, from: Message, source: string) {
    m.redrivenFrom == Some(source) && m.messageId == from.messageId && m.content == from.content
  }

  /** Whatever the turns meet, everything the loop appends to the target is a stamped copy of a message that was in the
      dead-letter queue. */
  lemma {:induction false} AppendedAreStamped(queues: Queues, source: string, maxCount: Option<nat>, turns: seq<Turn>,
          k: nat)
    requires source in queues && TargetQueue(source) in queues && TargetQueue(source) != source
    requires |queues[TargetQueue(source)]| <= k
      < |Loop(queues, source, maxCount, turns).queues[TargetQueue(source)]|
    ensures var target := TargetQueue(source); var after := Loop(queues, source, maxCount, turns).queues;
      exists j :: 0 <= j < |queues[source]| && StampedCopy(after[target][k], queues[source][j], source)
    decreases |turns|
  {
    hide AfterTurn, TargetQueue, IsDlqName, StampedCopy;
    var target := TargetQueue(source);
    var end := Loop(queues, source, maxCount, turns).queues[target];
    if maxCount == Some(0) || queues[source] == [] || turns == [] {
      LoopEnds(queues, source, maxCount, turns);
      assert false;
    } else {
      var after := AfterTurn(queues, source, turns[0]);
      TurnContents(queues, source, turns[0]);
      StampIsCopy(queues[source][0], source);
      if !Dies(turns[0]) {
        var left := if turns[0].Moves? && maxCount.Some? then Some(maxCount.value - 1) else maxCount;
        TargetGrows(after, source, left, turns[1..]);
        if k >= |after[target]| {
          AppendedAreStamped(after, source, left, turns[1..], k);
          var j :| 0 <= j < |after[source]| && StampedCopy(end[k], after[source][j], source);
          assert after[source][j] == queues[source][if turns[0].Moves? then j + 1 else j];
        } else {
          assert end[k] == end[..|after[target]|][k];
          assert StampedCopy(end[k], queues[source][0], source);
        }
      }
    }
  }

  lemma {:induction false} StampIsCopy(m: Message, source: string)
    ensures StampedCopy(Stamp(m, source), m, source)
  {
  }

  /** Nothing that is in the target is taken away. */
  lemma {:induction false} TargetGrows(queues: Queues, source: string, maxCount: Option<nat>, turns: seq<Turn>)
    requires source in queues && TargetQueue(source) in queues && TargetQueue(source) != source
    ensures queues[TargetQueue(source)] <= Loop(queues, source, maxCount, turns).queues[TargetQueue(source)]
    decreases |turns|
  {
    hide AfterTurn, TargetQueue, IsDlqName, Stamp;
    if maxCount == Some(0) || queues[source] == [] || turns == [] {
      LoopEnds(queues, source, maxCount, turns);
    } else {
      TurnContents(queues, source, turns[0]);
      if !Dies(turns[0]) {
        var left := if turns[0].Moves? && maxCount.Some? then Some(maxCount.value - 1) else maxCount;
        TargetGrows(AfterTurn(queues, source, turns[0]), source, left, turns[1..]);
      }
    }
  }

  lemma {:induction false} NothingStamped(s: seq<Message>, queue: seq<Message>, source: string)
    ensures queue + Stamped(s[..0], source) == queue
  {
  }

  lemma {:induction false} OneMoreStamped(s: seq<Message>, queue: seq<Message>, n: nat, source: string)
    requires n < |s|
    ensures queue + Stamped(s[..n + 1], source) == queue + [Stamp(s[0], source)] + Stamped(s[1..][..n], source)
  {
    StampedFront(s, n + 1, source);
  }

  lemma {:induction false} AllMovesCount(turns: seq<Turn>)
    requires AllMove(turns)
    ensures MovesIn(turns) == |turns|
  {
    if turns != [] {
      AllMovesCount(turns[1..]);
    }
  }

  /** Without failures the loop ends after moving `min(count, length)` messages, oldest first, to the
      end of the target queue. */
  lemma {:induction false} RedriveMoves(queues: Queues, source: string, maxCount: Option<nat>, turns: seq<Turn>)
    requires source in queues && TargetQueue(source) in queues && IsDlqName(source)
    requires AllMove(turns) && |turns| >= Moved(maxCount, |queues[source]|)
    ensures var n := Moved(maxCount, |queues[source]|); var target := TargetQueue(source);
      var p := Loop(queues, source, maxCount, turns);
      && p.finished && p.redriven == n && p.failed == 0
      && p.queues[source] == queues[source][n..]
      && p.queues[target] == queues[target] + Stamped(queues[source][..n], source)
      && forall k :: 0 <= k < n ==> StampedCopy(p.queues[target][|queues[target]| + k], queues[source][k], source)
  {
    hide Loop, IsDlqName;
    AllMovesCount(turns);
    RedriveEndsIff(queues, source, maxCount, turns);
    MovesAppend(queues, source, maxCount, turns);
  }

  /** A send that keeps throwing: nothing moves, and the loop never ends unless it had nothing to do. */
  lemma {:induction false} FailingSendNeverEnds(queues: Queues, source: string, maxCount: Option<nat>, turns: seq<Turn>)
    requires source in queues && queues[source] != [] && maxCount != Some(0)
    requires forall k :: 0 <= k < |turns| ==> turns[k].SendThrows?
    ensures Loop(queues, source, maxCount, turns) == Progress(queues, 0, |turns|, false)
    decreases |turns|
  {
    if turns != [] {
      FailingSendNeverEnds(queues, source, maxCount, turns[1..]);
    }
  }

  /** A queue whose name lacks the suffix is its own target: redriving all of it never ends. */
  lemma {:induction false} OwnTargetNeverEnds(queues: Queues, source: string, turns: seq<Turn>)
    requires source in queues && !IsDlqName(source) && queues[source] != []
    ensures !Loop(queues, source, None, turns).finished
  {
    RedriveEndsIff(queues, source, None, turns);
  }

  /** Without a target queue, what is reported as redriven is what is lost. */
  lemma {:induction false} MissingTargetLoses(queues: Queues, source: string, maxCount: Option<nat>, turns: seq<Turn>)
    requires source in queues && TargetQueue(source) !in queues
    ensures var p := Loop(queues, source, maxCount, turns);
      |Held(p.queues, source)| + p.redriven == |Held(queues, source)|
    decreases |turns|
  {
    hide TargetQueue, IsDlqName, AfterTurn, Held;
    if maxCount != Some(0) && queues[source] != [] && turns != [] {
      TurnConserves(queues, source, turns[0]);
      if !Dies(turns[0]) {
        var left := if turns[0].Moves? && maxCount.Some? then Some(maxCount.value - 1) else maxCount;
        MissingTargetLoses(AfterTurn(queues, source, turns[0]), source, left, turns[1..]);
      }
    }
  }

  // ---------------------------------------------------------------- the command

  /** A broker channel: `get` without auto-ack holds the message until it is acked or returned. */
  class Channel {
    var queues: Queues
    var unacked: Option<Message>

    constructor (queues: Queues)
      ensures this.queues == queues && unacked == None
    {
      this.queues, unacked := queues, None;
    }

    method Get(queue: string) returns (m: Option<Message>)
      requires queue in queues
      modifies this
      ensures m.None? <==> old(queues[queue]) == []
      ensures m.None? ==> queues == old(queues) && unacked == old(unacked)
      ensures m.Some? ==>
        m.value == old(queues[queue][0]) && unacked == m && queues == old(queues)[queue := old(queues[queue])[1..]]
    {
      if queues[queue] == [] {
        return None;
      }
      m := Some(queues[queue][0]);
      unacked := m;
      queues := queues[queue := queues[queue][1..]];
    }

    method SendToQueue(queue: string, m: Message)
      modifies this`queues
      ensures queues == Send(old(queues), queue, m)
    {
      if queue in queues {
        queues := queues[queue := queues[queue] + [m]];
      }
    }

    /** `nack` with requeue, and what the broker does when the channel goes away. */
    method Return(queue: string)
      requires queue in queues && unacked.Some?
      modifies this
      ensures queues == Returned(old(queues), queue, old(unacked.value)) && unacked == None
    {
      queues := queues[queue := [unacked.value] + queues[queue]];
      unacked := None;
    }
  }

  /** One turn of the command: the message just got is sent on and acked, or goes back. */
  method TakeTurn(channel: Channel, source: string, t: Turn)
    requires source in channel.queues && channel.queues[source] != [] && channel.unacked.None?
    modifies channel
    ensures channel.queues == AfterTurn(old(channel.queues), source, t) && channel.unacked.None?
  {
    ghost var before := channel.queues;
    var got := channel.Get(source);
    if t.SendThrows? || t.DiesBeforeSend? {
      channel.Return(source);
      assert channel.queues[source] == before[source];
      assert channel.queues == before;
    } else {
      channel.SendToQueue(TargetQueue(source), Stamp(got.value, source));
      if t.Moves? {
        channel.unacked := None;
      } else {
        channel.Return(source);
      }
    }
  }

  /** The command's loop. Turns beyond those given are not observed. */
  method Redrive(channel: Channel, source: string, maxCount: Option<nat>, turns: seq<Turn>)
    returns (redriven: nat, failed: nat, finished: bool)
    requires source in channel.queues && channel.unacked.None?
    modifies channel
    ensures Progress(channel.queues, redriven, failed, finished) == Loop(old(channel.queues), source, maxCount, turns)
  {
    hide Loop, AfterTurn;
    redriven, failed, finished := 0, 0, false;
    var left := maxCount;
    ghost var whole := Loop(channel.queues, source, maxCount, turns);
    assert turns[0..] == turns;
    for k := 0 to |turns|
      invariant source in channel.queues && channel.unacked.None? && !finished
      invariant var rest := Loop(channel.queues, source, left, turns[k..]);
        whole == rest.(redriven := redriven + rest.redriven, failed := failed + rest.failed)
    {
      if left == Some(0) || channel.queues[source] == [] {
        LoopEnds(channel.queues, source, left, turns[k..]);
        finished := true;
        return;
      }
      LoopFrom(channel.queues, source, left, turns, k);
      TakeTurn(channel, source, turns[k]);
      if Dies(turns[k]) {
        return;
      }
      if turns[k].Moves? {
        redriven := redriven + 1;
        left := if left.Some? then Some(left.value - 1) else None;
      } else {
        failed := failed + 1;
      }
    }
    LoopEnds(channel.queues, source, left, turns[|turns|..]);
    finished := left == Some(0) || channel.queues[source] == [];
  }
}
