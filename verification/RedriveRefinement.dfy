/** A run of the redrive loop is a run of the protocol, as long as the target queue exists. */
module RedriveRefinement {
  import opened Base
  import opened Consumer
  import opened Protocol
  import opened ProtocolRows
  import opened Refinement
  import R = Redrive

  /** The messages of a broker queue, as copies addressed to consumer `q`. */
  function CopiesIn(q: Subscription, queue: seq<R.Message>): multiset<Copy> {
    if queue == [] then multiset{} else multiset{Copy(q, queue[0].content)} + CopiesIn(q, queue[1..])
  }

  lemma {:induction false} CopiesAppend(q: Subscription, queue: seq<R.Message>, m: R.Message)
    ensures CopiesIn(q, queue + [m]) == CopiesIn(q, queue) + multiset{Copy(q, m.content)}
  {
    if queue == [] {
      assert queue + [m] == [m];
      assert [m][1..] == [];
    } else {
      assert (queue + [m])[1..] == queue[1..] + [m];
      CopiesAppend(q, queue[1..], m);
    }
  }

  /** The broker queues of a redrive as part of the protocol's state: a dead-letter queue and its target, or one
      queue that is redriven to itself. `ready` and `dead` are everything else there. */
  function WithQueues(s: State, q: Subscription, queues: R.Queues, source: string, ready: multiset<Copy>,
          dead: multiset<Copy>): State
    requires source in queues && R.TargetQueue(source) in queues
  {
    if R.IsDlqName(source) then
      s.(ready := ready + CopiesIn(q, queues[R.TargetQueue(source)]), dead := dead + CopiesIn(q, queues[source]))
    else s.(ready := ready + CopiesIn(q, queues[source]), dead := dead)
  }

  // ---------------------------------------------------------------- one turn

  function Source(s: State, dead: bool): multiset<Copy> {
    if dead then s.dead else s.ready
  }

  function WithSource(s: State, dead: bool, copies: multiset<Copy>): State {
    if dead then s.(dead := copies) else s.(ready := copies)
  }

  lemma {:induction false} Gets(s: State, d: nat, c: Copy, dead: bool)
    requires d !in s.redrives && c in Source(s, dead)
    ensures var x := Operate(RedriveGet(d, c, dead));
      Enabled(s, x) && Step(s, x) ==
        WithSource(s, dead, Source(s, dead) - multiset{c}).(redrives := s.redrives[d := Redriving(c, false, dead)])
  {
    hide Produced, Relayed, Consumed, ProducerEnabled, RelayEnabled, ConsumerEnabled;
  }

  lemma {:induction false} SendsOn(s: State, d: nat, c: Copy, dead: bool)
    requires d in s.redrives && s.redrives[d] == Redriving(c, false, dead)
    ensures var x := Operate(RedriveSend(d));
      Enabled(s, x) &&
        Step(s, x) == s.(ready := s.ready + multiset{c}, redrives := s.redrives[d := Redriving(c, true, dead)])
  {
    hide Produced, Relayed, Consumed, ProducerEnabled, RelayEnabled, ConsumerEnabled;
  }

  lemma {:induction false} Ends(s: State, d: nat, c: Copy, sent: bool, dead: bool)
    requires d in s.redrives && s.redrives[d] == Redriving(c, sent, dead)
    ensures var ack := Operate(RedriveAck(d));
      sent ==> Enabled(s, ack) && Step(s, ack) == s.(redrives := s.redrives - {d})
    ensures var back := Operate(RedriveReturn(d));
      Enabled(s, back) &&
        Step(s, back) == WithSource(s, dead, Source(s, dead) + multiset{c}).(redrives := s.redrives - {d})
  {
    hide Produced, Relayed, Consumed, ProducerEnabled, RelayEnabled, ConsumerEnabled;
  }

  // ---------------------------------------------------------------- the command, call by call

  /** One run of the command: redrive `d` of the messages for consumer `q`, from its dead-letter queue or from the
      queue itself. */
  datatype Job = Job(d: nat, q: Subscription, dead: bool)

  /** What the command is about to do: get a message, while `left` of them may still be moved; send the one it
      holds; ack it; give it back after an error. */
  datatype Pc =
    | Getting(left: Option<nat>)
    | Sending(copy: Copy, left: Option<nat>)
    | Acking(copy: Copy, left: Option<nat>)
    | Returning(copy: Copy, sent: bool, left: Option<nat>)
    | Over(finished: bool)

  /** With the messages redriven and failed so far. */
  datatype Code = Code(pc: Pc, redriven: nat, failed: nat)

  /** What happens while the command runs: `get` answers with a message or with none, another call on the channel
      works or throws, the process dies, or anybody else takes a step. */
  datatype Move = Got(copy: Copy) | GotNothing | Worked | Threw | Dies | Meanwhile(action: Action)

  /** Steps of other redrives, and of anybody who does not redrive. */
  predicate OfOthers(a: Action, d: nat) {
    !a.Operate? || a.operator.ForeignPublish? || a.operator.d != d
  }

  predicate CanMove(job: Job, s: State, pc: Pc, move: Move) {
    match move
    case Got(c) => pc.Getting? && c.queue == job.q && c in Source(s, job.dead)
    case GotNothing => pc.Getting? && forall c :: c in Source(s, job.dead) ==> c.queue != job.q
    case Worked => pc.Sending? || pc.Acking? || pc.Returning?
    case Threw => pc.Sending? || pc.Acking?
    case Dies => !pc.Over?
    case Meanwhile(a) => Enabled(s, a) && OfOthers(a, job.d)
  }

  /** The head of the loop. */
  function NextTurn(left: Option<nat>): Pc {
    if left == Some(0) then Over(true) else Getting(left)
  }

  function OneLess(left: Option<nat>): Option<nat> {
    if left.Some? && left.value > 0 then Some(left.value - 1) else left
  }

  function Next(c: Code, move: Move): Code {
    match (move, c.pc)
    case (Got(copy), Getting(left)) => c.(pc := Sending(copy, left))
    case (GotNothing, Getting(_)) => c.(pc := Over(true))
    case (Worked, Sending(copy, left)) => c.(pc := Acking(copy, left))
    case (Worked, Acking(_, left)) => c.(pc := NextTurn(OneLess(left)), redriven := c.redriven + 1)
    case (Worked, Returning(_, _, left)) => c.(pc := NextTurn(left), failed := c.failed + 1)
    case (Threw, Sending(copy, left)) => c.(pc := Returning(copy, false, left))
    case (Threw, Acking(copy, left)) => c.(pc := Returning(copy, true, left))
    case (Dies, _) => c.(pc := Over(false))
    case _ => c
  }

  /** The unacked message of the redrive. */
  function Holding(pc: Pc): Option<Copy> {
    if pc.Sending? || pc.Acking? || pc.Returning? then Some(pc.copy) else None
  }

  /** What the call makes of the ready and the dead messages. The broker gives an unacked message back when the
      process is gone. */
  function QueuesAfter(job: Job, ready: multiset<Copy>, dead: multiset<Copy>, pc: Pc, move: Move)
    : (multiset<Copy>, multiset<Copy>)
  {
    if move.Got? then
      var c := multiset{move.copy};
      if job.dead then (ready, dead - c) else (ready - c, dead)
    else if move.Worked? && pc.Sending? then (ready + multiset{pc.copy}, dead)
    else if Holding(pc).Some? && (move.Dies? || (move.Worked? && pc.Returning?)) then
      var c := multiset{Holding(pc).value};
      if job.dead then (ready, dead + c) else (ready + c, dead)
    else (ready, dead)
  }

  /** Where a redrive is in the protocol. */
  function Tracked(job: Job, redrives: map<nat, Redriving>, pc: Pc): map<nat, Redriving> {
    match pc
    case Sending(c, _) => redrives[job.d := Redriving(c, false, job.dead)]
    case Acking(c, _) => redrives[job.d := Redriving(c, true, job.dead)]
    case Returning(c, sent, _) => redrives[job.d := Redriving(c, sent, job.dead)]
    case _ => redrives - {job.d}
  }

  predicate AtPc(job: Job, s: State, pc: Pc) {
    s.redrives == Tracked(job, s.redrives, pc)
  }

  function StateAfter(job: Job, s: State, c: Code, move: Move): State
    requires CanMove(job, s, c.pc, move)
  {
    if move.Meanwhile? then Step(s, move.action)
    else
      var (ready, dead) := QueuesAfter(job, s.ready, s.dead, c.pc, move);
      Placed(job, s, ready, dead, Next(c, move).pc)
  }

  function Placed(job: Job, s: State, ready: multiset<Copy>, dead: multiset<Copy>, pc: Pc): State {
    s.(ready := ready, dead := dead, redrives := Tracked(job, s.redrives, pc))
  }

  lemma {:induction false} RedriveElsewhere(s: State, a: Action, d: nat)
    requires Enabled(s, a) && OfOthers(a, d)
    ensures d in Step(s, a).redrives <==> d in s.redrives
    ensures d in s.redrives ==> Step(s, a).redrives[d] == s.redrives[d]
  {
    hide Produced, Relayed, Consumed, ProducerEnabled, RelayEnabled, ConsumerEnabled, Unforged, Register;
    match a
    case Produce(p) => ProducerKeeps(s, p);
    case Relay(r, x) => RelayKeeps(s, r, x);
    case Consume(t, x) => ConsumerKeeps(s, t, x);
    case Operate(_) =>
  }

  lemma {:induction false} MoveKeepsPc(job: Job, s: State, c: Code, move: Move)
    requires AtPc(job, s, c.pc) && CanMove(job, s, c.pc, move)
    ensures AtPc(job, StateAfter(job, s, c, move), Next(c, move).pc)
  {
    hide Step, Enabled, QueuesAfter, OfOthers, Next;
    if move.Meanwhile? {
      RedriveElsewhere(s, move.action, job.d);
      MeanwhileStays(c, move);
      TrackedStays(job, s.redrives, Step(s, move.action).redrives, c.pc);
    }
  }

  lemma {:induction false} MeanwhileStays(c: Code, move: Move)
    requires move.Meanwhile?
    ensures Next(c, move) == c
  {
  }

  lemma {:induction false} TrackedStays(job: Job, redrives: map<nat, Redriving>, later: map<nat, Redriving>, pc: Pc)
    requires redrives == Tracked(job, redrives, pc)
    requires (job.d in later <==> job.d in redrives) && (job.d in redrives ==> later[job.d] == redrives[job.d])
    ensures later == Tracked(job, later, pc)
  {
    if job.d in later {
      assert later[job.d := later[job.d]] == later;
    }
  }

  /** The moves can happen one after the other. */
  ghost predicate Follows(job: Job, s: State, c: Code, moves: seq<Move>)
    decreases |moves|
  {
    moves == [] ||
    (CanMove(job, s, c.pc, moves[0]) &&
      Follows(job, StateAfter(job, s, c, moves[0]), Next(c, moves[0]), moves[1..]))
  }

  ghost function EndState(job: Job, s: State, c: Code, moves: seq<Move>): State
    requires Follows(job, s, c, moves)
    decreases |moves|
  {
    if moves == [] then s else EndState(job, StateAfter(job, s, c, moves[0]), Next(c, moves[0]), moves[1..])
  }

  function EndCode(c: Code, moves: seq<Move>): Code
    decreases |moves|
  {
    if moves == [] then c else EndCode(Next(c, moves[0]), moves[1..])
  }

  /** Each call is a step of the protocol, or none. */
  lemma {:induction false} MoveIsRun(job: Job, s: State, c: Code, move: Move) returns (actions: seq<Action>)
    requires AtPc(job, s, c.pc) && CanMove(job, s, c.pc, move)
    ensures Leads(s, actions, StateAfter(job, s, c, move))
  {
    hide Leads, Step, Enabled, OfOthers;
    var n := StateAfter(job, s, c, move);
    match move
    case Meanwhile(a) => actions := OneStep(s, a, n);
    case Got(copy) =>
      Gets(s, job.d, copy, job.dead);
      actions := OneStep(s, Operate(RedriveGet(job.d, copy, job.dead)), n);
    case GotNothing => actions := NoActions(s);
    case Threw => actions := NoActions(s);
    case Worked => actions := CallIsRun(job, s, c);
    case Dies => actions := DeathIsRun(job, s, c);
  }

  lemma {:induction false} CallIsRun(job: Job, s: State, c: Code) returns (actions: seq<Action>)
    requires AtPc(job, s, c.pc) && CanMove(job, s, c.pc, Worked)
    ensures Leads(s, actions, StateAfter(job, s, c, Worked))
  {
    hide Leads, StateAfter, AtPc;
    match c.pc
    case Sending(_, _) => actions := SendIsRun(job, s, c);
    case Acking(_, _) => actions := AckIsRun(job, s, c);
    case Returning(_, _, _) => actions := ReturnIsRun(job, s, c);
  }

  lemma {:induction false} SendIsRun(job: Job, s: State, c: Code) returns (actions: seq<Action>)
    requires AtPc(job, s, c.pc) && c.pc.Sending?
    ensures Leads(s, actions, StateAfter(job, s, c, Worked))
  {
    hide Leads, Step, Enabled;
    SendsOn(s, job.d, c.pc.copy, job.dead);
    actions := OneStep(s, Operate(RedriveSend(job.d)), StateAfter(job, s, c, Worked));
  }

  lemma {:induction false} AckIsRun(job: Job, s: State, c: Code) returns (actions: seq<Action>)
    requires AtPc(job, s, c.pc) && c.pc.Acking?
    ensures Leads(s, actions, StateAfter(job, s, c, Worked))
  {
    hide Leads, Step, Enabled;
    Ends(s, job.d, c.pc.copy, true, job.dead);
    actions := OneStep(s, Operate(RedriveAck(job.d)), StateAfter(job, s, c, Worked));
  }

  lemma {:induction false} ReturnIsRun(job: Job, s: State, c: Code) returns (actions: seq<Action>)
    requires AtPc(job, s, c.pc) && c.pc.Returning?
    ensures Leads(s, actions, StateAfter(job, s, c, Worked))
  {
    hide Leads, Step, Enabled;
    Ends(s, job.d, c.pc.copy, c.pc.sent, job.dead);
    actions := OneStep(s, Operate(RedriveReturn(job.d)), StateAfter(job, s, c, Worked));
  }

  lemma {:induction false} DeathIsRun(job: Job, s: State, c: Code) returns (actions: seq<Action>)
    requires AtPc(job, s, c.pc) && !c.pc.Over?
    ensures Leads(s, actions, StateAfter(job, s, c, Dies))
  {
    hide Leads, Step, Enabled;
    var n := StateAfter(job, s, c, Dies);
    if c.pc.Getting? {
      actions := NoActions(s);
    } else {
      Ends(s, job.d, c.pc.copy, s.redrives[job.d].sent, job.dead);
      actions := OneStep(s, Operate(RedriveReturn(job.d)), n);
    }
  }

  /** Every way in which the calls of a redrive can interleave with whatever everybody else does is a run of the
      protocol. */
  lemma {:induction false} RedriveIsRun(job: Job, s: State, c: Code, moves: seq<Move>) returns (actions: seq<Action>)
    requires AtPc(job, s, c.pc) && Follows(job, s, c, moves)
    ensures var n := EndState(job, s, c, moves);
      Leads(s, actions, n) && AtPc(job, n, EndCode(c, moves).pc)
    decreases |moves|
  {
    hide Leads, AtPc, CanMove, StateAfter, Next;
    if moves == [] {
      actions := NoActions(s);
    } else {
      MoveKeepsPc(job, s, c, moves[0]);
      var first := MoveIsRun(job, s, c, moves[0]);
      var n, next := StateAfter(job, s, c, moves[0]), Next(c, moves[0]);
      var rest := RedriveIsRun(job, n, next, moves[1..]);
      LeadsTogether(s, first, n, rest, EndState(job, n, next, moves[1..]));
      actions := first + rest;
    }
  }

  // ---------------------------------------------------------------- turns that nobody interrupts

  /** The state after a message was sent on, and acked or put back as well. */
  function AfterSend(s: State, c: Copy, acked: bool, dead: bool): State {
    if dead then s.(ready := s.ready + multiset{c}, dead := if acked then s.dead - multiset{c} else s.dead)
    else s.(ready := if acked then s.ready else s.ready + multiset{c})
  }

  /** These moves lead there. */
  ghost predicate Reaches(job: Job, s: State, c: Code, moves: seq<Move>, end: State, code: Code) {
    Follows(job, s, c, moves) && EndState(job, s, c, moves) == end && EndCode(c, moves) == code
  }

  lemma {:induction false} OneMove(job: Job, s: State, c: Code, move: Move, rest: seq<Move>, end: State, code: Code)
    returns (moves: seq<Move>)
    requires CanMove(job, s, c.pc, move)
    requires Reaches(job, StateAfter(job, s, c, move), Next(c, move), rest, end, code)
    ensures Reaches(job, s, c, moves, end, code)
  {
    hide CanMove, StateAfter, Next;
    moves := [move] + rest;
    assert moves[1..] == rest;
  }

  /** The state and the counts after one turn of the loop. */
  function AfterTurn(s: State, c: Copy, turn: R.Turn, dead: bool): State {
    if R.Sends(turn) then AfterSend(s, c, turn.Moves?, dead) else s
  }

  function CodeAfterTurn(c: Code, turn: R.Turn): Code
    requires c.pc.Getting?
  {
    if R.Dies(turn) then c.(pc := Over(false))
    else if turn.Moves? then Code(NextTurn(OneLess(c.pc.left)), c.redriven + 1, c.failed)
    else Code(NextTurn(c.pc.left), c.redriven, c.failed + 1)
  }

  /** One turn, whatever it meets, as calls. */
  lemma {:induction false} TurnAlone(job: Job, s: State, c: Code, copy: Copy, turn: R.Turn, rest: seq<Move>,
                                     end: State, code: Code)
    returns (moves: seq<Move>)
    requires job.d !in s.redrives && c.pc.Getting? && copy.queue == job.q && copy in Source(s, job.dead)
    requires Reaches(job, AfterTurn(s, copy, turn, job.dead), CodeAfterTurn(c, turn), rest, end, code)
    ensures Reaches(job, s, c, moves, end, code)
  {
    hide Reaches, AfterTurn, QueuesAfter;
    if R.Sends(turn) {
      moves := SentAlone(job, s, c, copy, turn, rest, end, code);
    } else {
      moves := UnsentAlone(job, s, c, copy, turn, rest, end, code);
    }
    moves := OneMove(job, s, c, Got(copy), moves, end, code);
  }

  /** One call after another. */
  lemma {:induction false} PlacedAgain(job: Job, s: State, ready: multiset<Copy>, dead: multiset<Copy>, c: Code,
          move: Move)
    requires !move.Meanwhile? && CanMove(job, Placed(job, s, ready, dead, c.pc), c.pc, move)
    ensures var (r, d) := QueuesAfter(job, ready, dead, c.pc, move);
      StateAfter(job, Placed(job, s, ready, dead, c.pc), c, move) == Placed(job, s, r, d, Next(c, move).pc)
  {
    hide QueuesAfter, Next, Tracked;
    TrackedAgain(job, s.redrives, c.pc, Next(c, move).pc);
  }

  lemma {:induction false} TrackedAgain(job: Job, redrives: map<nat, Redriving>, pc: Pc, next: Pc)
    ensures Tracked(job, Tracked(job, redrives, pc), next) == Tracked(job, redrives, next)
  {
  }

  lemma {:induction false} PlacedNowhere(job: Job, s: State, ready: multiset<Copy>, dead: multiset<Copy>, pc: Pc)
    requires job.d !in s.redrives && (pc.Getting? || pc.Over?)
    ensures Placed(job, s, ready, dead, pc) == s.(ready := ready, dead := dead)
  {
    assert s.redrives - {job.d} == s.redrives;
  }

  /** The turns that do not send: the send throws, or the process dies before it. */
  lemma {:induction false} UnsentAlone(job: Job, s: State, c: Code, copy: Copy, turn: R.Turn, rest: seq<Move>,
                                       end: State, code: Code)
    returns (moves: seq<Move>)
    requires job.d !in s.redrives && c.pc.Getting? && copy in Source(s, job.dead) && !R.Sends(turn)
    requires Reaches(job, AfterTurn(s, copy, turn, job.dead), CodeAfterTurn(c, turn), rest, end, code)
    ensures Reaches(job, Held(job, s, copy, c.pc.left), c.(pc := Sending(copy, c.pc.left)), moves, end, code)
  {
    hide Reaches, StateAfter, Placed;
    var c1 := c.(pc := Sending(copy, c.pc.left));
    var (ready, dead) := QueuesAfter(job, s.ready, s.dead, c.pc, Got(copy));
    var s1 := Held(job, s, copy, c.pc.left);
    if turn.DiesBeforeSend? {
      PlacedAgain(job, s, ready, dead, c1, Dies);
      GivenBack(job, s, copy, Over(false));
      moves := OneMove(job, s1, c1, Dies, rest, end, code);
    } else {
      moves := ThrownAlone(job, s, c, copy, rest, end, code);
    }
  }

  lemma {:induction false} ThrownAlone(job: Job, s: State, c: Code, copy: Copy, rest: seq<Move>, end: State, code: Code)
    returns (moves: seq<Move>)
    requires job.d !in s.redrives && c.pc.Getting? && copy in Source(s, job.dead)
    requires Reaches(job, s, CodeAfterTurn(c, R.SendThrows), rest, end, code)
    ensures Reaches(job, Held(job, s, copy, c.pc.left), c.(pc := Sending(copy, c.pc.left)), moves, end, code)
  {
    hide Reaches, StateAfter, Placed;
    var c1 := c.(pc := Sending(copy, c.pc.left));
    var (ready, dead) := QueuesAfter(job, s.ready, s.dead, c.pc, Got(copy));
    var c2 := Next(c1, Threw);
    PlacedAgain(job, s, ready, dead, c1, Threw);
    PlacedAgain(job, s, ready, dead, c2, Worked);
    GivenBack(job, s, copy, NextTurn(c.pc.left));
    moves := OneMove(job, Placed(job, s, ready, dead, c2.pc), c2, Worked, rest, end, code);
    moves := OneMove(job, Held(job, s, copy, c.pc.left), c1, Threw, moves, end, code);
  }

  /** The state after the message was taken. */
  function Held(job: Job, s: State, copy: Copy, left: Option<nat>): State {
    var (ready, dead) := QueuesAfter(job, s.ready, s.dead, Getting(left), Got(copy));
    Placed(job, s, ready, dead, Sending(copy, left))
  }

  lemma {:induction false} GivenBack(job: Job, s: State, copy: Copy, pc: Pc)
    requires job.d !in s.redrives && (pc.Getting? || pc.Over?) && copy in Source(s, job.dead)
    ensures Source(s, job.dead) - multiset{copy} + multiset{copy} == Source(s, job.dead)
    ensures Placed(job, s, s.ready, s.dead, pc) == s
  {
    PlacedNowhere(job, s, s.ready, s.dead, pc);
  }

  /** The turns that send: all goes well, the ack throws, or the process dies before it. */
  lemma {:induction false} SentAlone(job: Job, s: State, c: Code, copy: Copy, turn: R.Turn, rest: seq<Move>,
                                     end: State, code: Code)
    returns (moves: seq<Move>)
    requires job.d !in s.redrives && c.pc.Getting? && copy in Source(s, job.dead) && R.Sends(turn)
    requires Reaches(job, AfterTurn(s, copy, turn, job.dead), CodeAfterTurn(c, turn), rest, end, code)
    ensures Reaches(job, Held(job, s, copy, c.pc.left), c.(pc := Sending(copy, c.pc.left)), moves, end, code)
  {
    hide Reaches, StateAfter, Placed, AfterSend;
    var c1 := c.(pc := Sending(copy, c.pc.left));
    var c2 := Next(c1, Worked);
    var (ready, dead) := QueuesAfter(job, s.ready, s.dead, c.pc, Got(copy));
    var s1, s2 := Held(job, s, copy, c.pc.left), Placed(job, s, ready + multiset{copy}, dead, c2.pc);
    PlacedAgain(job, s, ready, dead, c1, Worked);
    var pc := CodeAfterTurn(c, turn).pc;
    SentOn(job, s, copy, pc);
    if turn.Moves? {
      PlacedAgain(job, s, ready + multiset{copy}, dead, c2, Worked);
      moves := OneMove(job, s2, c2, Worked, rest, end, code);
    } else if turn.DiesAfterSend? {
      PlacedAgain(job, s, ready + multiset{copy}, dead, c2, Dies);
      moves := OneMove(job, s2, c2, Dies, rest, end, code);
    } else {
      var c3 := Next(c2, Threw);
      PlacedAgain(job, s, ready + multiset{copy}, dead, c2, Threw);
      PlacedAgain(job, s, ready + multiset{copy}, dead, c3, Worked);
      moves := OneMove(job, Placed(job, s, ready + multiset{copy}, dead, c3.pc), c3, Worked, rest, end, code);
      moves := OneMove(job, s2, c2, Threw, moves, end, code);
    }
    moves := OneMove(job, s1, c1, Worked, moves, end, code);
  }

  lemma {:induction false} SentOn(job: Job, s: State, copy: Copy, pc: Pc)
    requires job.d !in s.redrives && (pc.Getting? || pc.Over?) && copy in Source(s, job.dead)
    ensures var (ready, dead) := QueuesAfter(job, s.ready, s.dead, Getting(None), Got(copy)); var c := multiset{copy};
      && Placed(job, s, ready + c, dead, pc) == AfterSend(s, copy, true, job.dead)
      && (if job.dead then Placed(job, s, ready + c, dead + c, pc) else Placed(job, s, ready + c + c, dead, pc))
         == AfterSend(s, copy, false, job.dead)
  {
    hide Placed;
    assert Source(s, job.dead) - multiset{copy} + multiset{copy} == Source(s, job.dead);
    var (ready, dead) := QueuesAfter(job, s.ready, s.dead, Getting(None), Got(copy));
    var c := multiset{copy};
    PlacedNowhere(job, s, ready + c, dead, pc);
    PlacedNowhere(job, s, ready + c, dead + c, pc);
    PlacedNowhere(job, s, ready + c + c, dead, pc);
  }

  /** What a turn does to a dead-letter queue and its target, and to a queue that is its own target, as
      multisets of copies. */
  lemma {:induction false} OtherTurnCopies(q: Subscription, queues: R.Queues, source: string, turn: R.Turn)
    requires source in queues && queues[source] != [] && R.TargetQueue(source) in queues &&
      R.TargetQueue(source) != source
    ensures var c := multiset{Copy(q, queues[source][0].content)}; var target := R.TargetQueue(source);
      var after := R.AfterTurn(queues, source, turn);
      && CopiesIn(q, after[target]) == CopiesIn(q, queues[target]) + (if R.Sends(turn) then c else multiset{})
      && CopiesIn(q, after[source])
        == (if turn.Moves? then CopiesIn(q, queues[source]) - c else CopiesIn(q, queues[source]))
  {
    hide R.AfterTurn, R.IsDlqName, R.TargetQueue, CopiesIn;
    R.TurnContents(queues, source, turn);
    CopiesAppend(q, queues[R.TargetQueue(source)], R.Stamp(queues[source][0], source));
    CopiesSplit(q, queues[source]);
    assert queues[R.TargetQueue(source)] + [] == queues[R.TargetQueue(source)];
  }

  lemma {:induction false} OwnTurnCopies(q: Subscription, queues: R.Queues, source: string, turn: R.Turn)
    requires source in queues && queues[source] != [] && R.TargetQueue(source) == source
    ensures var c := multiset{Copy(q, queues[source][0].content)};
      CopiesIn(q, R.AfterTurn(queues, source, turn)[source])
        == CopiesIn(q, queues[source]) + (if R.Duplicates(turn) then c else multiset{})
  {
    hide R.AfterTurn, R.IsDlqName, R.TargetQueue, CopiesIn;
    R.OwnTurnContents(queues, source, turn);
    CopiesAppend(q, queues[source], R.Stamp(queues[source][0], source));
    CopiesAppend(q, queues[source][1..], R.Stamp(queues[source][0], source));
    CopiesSplit(q, queues[source]);
    assert queues[source] + [] == queues[source];
  }

  lemma {:induction false} CopiesSplit(q: Subscription, queue: seq<R.Message>)
    requires queue != []
    ensures CopiesIn(q, queue) == CopiesIn(q, queue[1..]) + multiset{Copy(q, queue[0].content)}
    ensures CopiesIn(q, queue[1..]) == CopiesIn(q, queue) - multiset{Copy(q, queue[0].content)}
  {
  }

  lemma {:induction false} CopyIsThere(s: State, q: Subscription, queues: R.Queues, source: string,
          ready: multiset<Copy>, dead: multiset<Copy>)
    requires source in queues && queues[source] != [] && R.TargetQueue(source) in queues
    requires s == WithQueues(s, q, queues, source, ready, dead)
    ensures Copy(q, queues[source][0].content) in Source(s, R.IsDlqName(source))
  {
    hide CopiesIn, R.IsDlqName, R.TargetQueue;
    CopiesSplit(q, queues[source]);
  }

  /** That state is the one the turn leaves. */
  lemma {:induction false} AfterTurnState(s: State, q: Subscription, queues: R.Queues, source: string, turn: R.Turn,
                                          ready: multiset<Copy>, dead: multiset<Copy>)
    requires source in queues && queues[source] != [] && R.TargetQueue(source) in queues
    requires s == WithQueues(s, q, queues, source, ready, dead)
    ensures var c := Copy(q, queues[source][0].content);
      WithQueues(s, q, R.AfterTurn(queues, source, turn), source, ready, dead)
        == AfterTurn(s, c, turn, R.IsDlqName(source))
  {
    hide R.IsDlqName, R.TargetQueue, R.AfterTurn, CopiesIn;
    if R.IsDlqName(source) {
      OtherTurnState(s, q, queues, source, turn, ready, dead);
    } else {
      OwnTurnState(s, q, queues, source, turn, ready, dead);
    }
  }

  lemma {:induction false} OwnTurnState(s: State, q: Subscription, queues: R.Queues, source: string, turn: R.Turn,
                                        ready: multiset<Copy>, dead: multiset<Copy>)
    requires source in queues && queues[source] != [] && R.TargetQueue(source) in queues && !R.IsDlqName(source)
    requires s == WithQueues(s, q, queues, source, ready, dead)
    ensures var c := Copy(q, queues[source][0].content);
      WithQueues(s, q, R.AfterTurn(queues, source, turn), source, ready, dead)
        == if R.Sends(turn) then AfterSend(s, c, turn.Moves?, false) else s
  {
    hide R.IsDlqName, R.TargetQueue, R.AfterTurn, CopiesIn;
    OwnTurnCopies(q, queues, source, turn);
    AddOne(ready, CopiesIn(q, queues[source]), Copy(q, queues[source][0].content));
  }

  lemma {:induction false} OtherTurnState(s: State, q: Subscription, queues: R.Queues, source: string, turn: R.Turn,
                                          ready: multiset<Copy>, dead: multiset<Copy>)
    requires source in queues && queues[source] != [] && R.TargetQueue(source) in queues && R.IsDlqName(source)
    requires s == WithQueues(s, q, queues, source, ready, dead)
    ensures var c := Copy(q, queues[source][0].content);
      WithQueues(s, q, R.AfterTurn(queues, source, turn), source, ready, dead)
        == if R.Sends(turn) then AfterSend(s, c, turn.Moves?, true) else s
  {
    hide R.IsDlqName, R.TargetQueue, R.AfterTurn, CopiesIn;
    var c := Copy(q, queues[source][0].content);
    OtherTurnCopies(q, queues, source, turn);
    CopiesSplit(q, queues[source]);
    AddOne(ready, CopiesIn(q, queues[R.TargetQueue(source)]), c);
    TakeOne(dead, CopiesIn(q, queues[source]), c);
  }

  lemma {:induction false} AddOne(rest: multiset<Copy>, copies: multiset<Copy>, c: Copy)
    ensures rest + (copies + multiset{c}) == rest + copies + multiset{c}
    ensures copies + multiset{} == copies
  {
  }

  lemma {:induction false} TakeOne(rest: multiset<Copy>, copies: multiset<Copy>, c: Copy)
    requires c in copies
    ensures rest + (copies - multiset{c}) == rest + copies - multiset{c}
  {
  }

  lemma {:induction false} WithQueuesTwice(s: State, q: Subscription, queues: R.Queues, later: R.Queues, source: string,
                                           ready: multiset<Copy>, dead: multiset<Copy>)
    requires source in queues && R.TargetQueue(source) in queues && source in later && R.TargetQueue(source) in later
    ensures var s1 := WithQueues(s, q, queues, source, ready, dead);
      s1.redrives == s.redrives &&
        WithQueues(s1, q, later, source, ready, dead) == WithQueues(s, q, later, source, ready, dead)
  {
    hide R.IsDlqName, R.TargetQueue, CopiesIn;
  }

  // ---------------------------------------------------------------- the loop

  /** One turn that nobody interrupts, whatever it meets: it leaves the broker queues that the turn function leaves. */
  lemma {:induction false} AloneIsTurn(job: Job, s: State, c: Code, queues: R.Queues, source: string, turn: R.Turn,
          ready: multiset<Copy>, dead: multiset<Copy>, rest: seq<Move>, end: State, code: Code)
    returns (moves: seq<Move>)
    requires source in queues && queues[source] != [] && R.TargetQueue(source) in queues
    requires job.dead == R.IsDlqName(source) && job.d !in s.redrives && c.pc.Getting?
    requires s == WithQueues(s, job.q, queues, source, ready, dead)
    requires Reaches(job, WithQueues(s, job.q, R.AfterTurn(queues, source, turn), source, ready, dead),
                     CodeAfterTurn(c, turn), rest, end, code)
    ensures Reaches(job, s, c, moves, end, code)
  {
    hide Reaches, R.IsDlqName, R.TargetQueue, R.AfterTurn, WithQueues, AfterTurn, Source, CodeAfterTurn;
    CopyIsThere(s, job.q, queues, source, ready, dead);
    AfterTurnState(s, job.q, queues, source, turn, ready, dead);
    moves := TurnAlone(job, s, c, Copy(job.q, queues[source][0].content), turn, rest, end, code);
  }

  /** The counts and the end of the loop function, for a command that is at the head of the loop. */
  predicate Reports(code: Code, c: Code, p: R.Progress, source: string)
    requires source in p.queues
  {
    && code.redriven == c.redriven + p.redriven && code.failed == c.failed + p.failed
    && (p.finished <==> code.pc == Over(true) || (code.pc.Getting? && p.queues[source] == []))
  }

  /** One turn of the loop function. */
  lemma {:induction false} LoopTurn(queues: R.Queues, source: string, left: Option<nat>, turns: seq<R.Turn>, c: Code,
          code: Code)
    requires source in queues && queues[source] != [] && left != Some(0) && turns != [] && c.pc == Getting(left)
    ensures var next, after := CodeAfterTurn(c, turns[0]), R.AfterTurn(queues, source, turns[0]);
      var p := R.Loop(queues, source, left, turns);
      if R.Dies(turns[0]) then p.queues == after && next.pc == Over(false) && Reports(next, c, p, source)
      else
        var less := if turns[0].Moves? && left.Some? then Some(left.value - 1) else left;
        var rest := R.Loop(after, source, less, turns[1..]);
        next.pc == NextTurn(less) && p.queues == rest.queues &&
          (Reports(code, next, rest, source) ==> Reports(code, c, p, source))
  {
    hide R.AfterTurn;
  }

  /** A redrive that nobody interrupts, for any queue whose target exists: the broker queues it leaves, its counts
      and its end are those of the loop function. */
  lemma {:induction false} AloneIsLoop(job: Job, s: State, c: Code, left: Option<nat>, queues: R.Queues,
          source: string, turns: seq<R.Turn>, ready: multiset<Copy>, dead: multiset<Copy>)
    returns (moves: seq<Move>, code: Code)
    requires source in queues && R.TargetQueue(source) in queues && job.dead == R.IsDlqName(source)
    requires s == WithQueues(s, job.q, queues, source, ready, dead) && job.d !in s.redrives && c.pc == NextTurn(left)
    ensures var p := R.Loop(queues, source, left, turns);
      && Reaches(job, s, c, moves, WithQueues(s, job.q, p.queues, source, ready, dead), code)
      && Reports(code, c, p, source)
    decreases |turns|
  {
    hide Reaches, R.IsDlqName, R.TargetQueue, R.AfterTurn, WithQueues, CodeAfterTurn, Reports, R.Loop;
    if left == Some(0) || queues[source] == [] || turns == [] {
      EndOfLoop(queues, source, left, turns, c);
      AlreadyThere(job, s, c);
      moves, code := [], c;
    } else {
      var after := R.AfterTurn(queues, source, turns[0]);
      var s1, c1 := WithQueues(s, job.q, after, source, ready, dead), CodeAfterTurn(c, turns[0]);
      WithQueuesTwice(s, job.q, after, after, source, ready, dead);
      var end := WithQueues(s, job.q, R.Loop(queues, source, left, turns).queues, source, ready, dead);
      LoopTurn(queues, source, left, turns, c, c1);
      if R.Dies(turns[0]) {
        AlreadyThere(job, s1, c1);
        moves, code := [], c1;
      } else {
        var less := if turns[0].Moves? && left.Some? then Some(left.value - 1) else left;
        moves, code := AloneIsLoop(job, s1, c1, less, after, source, turns[1..], ready, dead);
        LoopTurn(queues, source, left, turns, c, code);
        WithQueuesTwice(s, job.q, after, R.Loop(after, source, less, turns[1..]).queues, source, ready, dead);
      }
      moves := AloneIsTurn(job, s, c, queues, source, turns[0], ready, dead, moves, end, code);
    }
  }

  lemma {:induction false} EndOfLoop(queues: R.Queues, source: string, left: Option<nat>, turns: seq<R.Turn>, c: Code)
    requires source in queues && (left == Some(0) || queues[source] == [] || turns == []) && c.pc == NextTurn(left)
    ensures var p := R.Loop(queues, source, left, turns); p.queues == queues && Reports(c, c, p, source)
  {
    R.LoopEnds(queues, source, left, turns);
  }

  lemma {:induction false} AlreadyThere(job: Job, s: State, c: Code)
    ensures Reaches(job, s, c, [], s, c)
  {
  }

  /** So the whole loop of a redrive that nobody interrupts is a run of the protocol. */
  lemma {:induction false} LoopIsRun(job: Job, s: State, queues: R.Queues, source: string, maxCount: Option<nat>,
          turns: seq<R.Turn>, ready: multiset<Copy>, dead: multiset<Copy>)
    returns (actions: seq<Action>)
    requires job.d !in s.redrives && job.dead == R.IsDlqName(source)
    requires source in queues && R.TargetQueue(source) in queues
    requires s == WithQueues(s, job.q, queues, source, ready, dead)
    ensures var p := R.Loop(queues, source, maxCount, turns);
      Leads(s, actions, WithQueues(s, job.q, p.queues, source, ready, dead))
  {
    hide Leads, WithQueues, R.IsDlqName, R.TargetQueue, R.Loop, EndState, Follows;
    assert s.redrives - {job.d} == s.redrives;
    var c := Code(NextTurn(maxCount), 0, 0);
    var moves, code := AloneIsLoop(job, s, c, maxCount, queues, source, turns, ready, dead);
    actions := RedriveIsRun(job, s, c, moves);
  }
}
