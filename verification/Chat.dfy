/** The chat mailbox: one buffer behind a mutex, exchanged by the I/O thread and any number of
    network threads, and the quit message that travels through it.

    Thread 0 is the I/O thread. A step is one of the actions that other threads can come between:
    taking the mutex, copying the buffer out, copying the new message in, giving the mutex back. */
module Chat {
  import opened Sockets

  /** Where a thread is. The argument is what it called chat with; None stands for the null pointer. */
  datatype Pc =
    | Idle
    | Wanting(arg: Option<string>)
    | Holding(arg: Option<string>)
    | CopiedOut(arg: Option<string>)
    | CopiedIn(arg: Option<string>)
    | Returned(arg: Option<string>)
    | Finished

  /** local: the thread's own buffer, in which chat returns the old message. */
  datatype Thread = Thread(pc: Pc, local: string)

  /** Besides the shared buffer and the mutex the state keeps a history: what the I/O thread posted,
      the messages that network threads took, how many a later post overwrote, and how often the quit
      message was taken and posted back. */
  datatype Sys = Sys(
    mailbox: string,
    holder: Option<nat>,
    threads: seq<Thread>,
    posted: seq<string>,
    taken: seq<string>,
    overwritten: nat,
    acquired: nat,
    reposted: nat)

  function Start(n: nat): Sys {
    Sys("", None, seq(n + 1, _ => Thread(Idle, "")), [], [], 0, 0, 0)
  }

  // ---------------------------------------------------------------- steps

  datatype Move = Read(line: string) | Call | Expire | Lock | CopyOut | CopyIn | Unlock | Decide

  predicate Enabled(s: Sys, t: nat, m: Move) {
    && t < |s.threads|
    && var pc := s.threads[t].pc;
       match m
       case Read(line) => t == 0 && pc.Idle?
       case Call => t > 0 && pc.Idle?
       case Expire => t > 0 && pc.Idle?
       case Lock => pc.Wanting? && s.holder.None?
       case CopyOut => pc.Holding?
       case CopyIn => pc.CopiedOut?
       case Unlock => pc.CopiedIn?
       case Decide => pc.Returned?
  }

  function Stored(arg: Option<string>): string {
    if arg.Some? then arg.value else ""
  }

  /** What a thread does with the message chat returned. */
  function After(t: nat, th: Thread): Pc
    requires th.pc.Returned?
  {
    if t == 0 then (if th.pc.arg == Some(QUIT_MSG) then Finished else Idle)
    else if th.pc.arg.Some? then Finished
    else if th.local == QUIT_MSG then Wanting(Some(QUIT_MSG))
    else Idle
  }

  predicate IsMessage(text: string) {
    text != "" && text != QUIT_MSG
  }

  function Recorded(s: Sys, t: nat, th: Thread): Sys
    requires th.pc.CopiedOut?
  {
    if t == 0 then
      s.(posted := s.posted + [Stored(th.pc.arg)],
         overwritten := s.overwritten + if IsMessage(th.local) then 1 else 0)
    else if th.pc.arg.Some? then
      s.(reposted := s.reposted + 1,
         overwritten := s.overwritten + if IsMessage(th.local) then 1 else 0)
    else
      s.(taken := s.taken + if IsMessage(th.local) then [th.local] else [],
         acquired := s.acquired + if th.local == QUIT_MSG then 1 else 0)
  }

  function Goes(s: Sys, t: nat, pc: Pc): Sys
    requires t < |s.threads|
  {
    s.(threads := s.threads[t := s.threads[t].(pc := pc)])
  }

  function Step(s: Sys, t: nat, m: Move): Sys
    requires Enabled(s, t, m)
  {
    var th := s.threads[t];
    match m
    case Read(line) => Goes(s, t, Wanting(Some(line)))
    case Call => Goes(s, t, Wanting(None))
    case Expire => Goes(s, t, Finished)
    case Lock => Goes(s, t, Holding(th.pc.arg)).(holder := Some(t))
    case CopyOut => s.(threads := s.threads[t := Thread(CopiedOut(th.pc.arg), s.mailbox)])
    case CopyIn => Goes(Recorded(s, t, th), t, CopiedIn(th.pc.arg)).(mailbox := Stored(th.pc.arg))
    case Unlock => Goes(s, t, Returned(th.pc.arg)).(holder := None)
    case Decide => Goes(s, t, After(t, th))
  }

  datatype Act = Act(t: nat, move: Move)

  predicate Runs(s: Sys, acts: seq<Act>)
    decreases |acts|
  {
    acts != [] ==> Enabled(s, acts[0].t, acts[0].move) && Runs(Step(s, acts[0].t, acts[0].move), acts[1..])
  }

  function End(s: Sys, acts: seq<Act>): Sys
    requires Runs(s, acts)
    decreases |acts|
  {
    if acts == [] then s else End(Step(s, acts[0].t, acts[0].move), acts[1..])
  }

  // ---------------------------------------------------------------- the atomic register

  /** The simple form of chat: one indivisible exchange. */
  function Exchanged(register: string, arg: Option<string>): (string, string) {
    (register, Stored(arg))
  }

  datatype APc = AIdle | ACalling(arg: Option<string>) | AReturned(arg: Option<string>, result: string) | AFinished
  datatype Atomic = Atomic(register: string, threads: seq<APc>)

  datatype AMove = ARead(line: string) | ACall | AExpire | AExchange | ADecide

  predicate AEnabled(a: Atomic, t: nat, m: AMove) {
    && t < |a.threads|
    && match m
       case ARead(line) => t == 0 && a.threads[t].AIdle?
       case ACall => t > 0 && a.threads[t].AIdle?
       case AExpire => t > 0 && a.threads[t].AIdle?
       case AExchange => a.threads[t].ACalling?
       case ADecide => a.threads[t].AReturned?
  }

  function AAfter(t: nat, arg: Option<string>, result: string): APc {
    if t == 0 then (if arg == Some(QUIT_MSG) then AFinished else AIdle)
    else if arg.Some? then AFinished
    else if result == QUIT_MSG then ACalling(Some(QUIT_MSG))
    else AIdle
  }

  function AStep(a: Atomic, t: nat, m: AMove): Atomic
    requires AEnabled(a, t, m)
  {
    match m
    case ARead(line) => a.(threads := a.threads[t := ACalling(Some(line))])
    case ACall => a.(threads := a.threads[t := ACalling(None)])
    case AExpire => a.(threads := a.threads[t := AFinished])
    case AExchange =>
      var arg := a.threads[t].arg;
      var (result, register) := Exchanged(a.register, arg);
      Atomic(register, a.threads[t := AReturned(arg, result)])
    case ADecide => a.(threads := a.threads[t := AAfter(t, a.threads[t].arg, a.threads[t].result)])
  }

  datatype AAct = AAct(t: nat, move: AMove)

  predicate ARuns(a: Atomic, acts: seq<AAct>)
    decreases |acts|
  {
    acts != [] ==> AEnabled(a, acts[0].t, acts[0].move) && ARuns(AStep(a, acts[0].t, acts[0].move), acts[1..])
  }

  function AEnd(a: Atomic, acts: seq<AAct>): Atomic
    requires ARuns(a, acts)
    decreases |acts|
  {
    if acts == [] then a else AEnd(AStep(a, acts[0].t, acts[0].move), acts[1..])
  }

  /** The exchange takes effect when the new message is copied in. */
  function View(th: Thread): APc {
    match th.pc
    case Idle => AIdle
    case Wanting(arg) => ACalling(arg)
    case Holding(arg) => ACalling(arg)
    case CopiedOut(arg) => ACalling(arg)
    case CopiedIn(arg) => AReturned(arg, th.local)
    case Returned(arg) => AReturned(arg, th.local)
    case Finished => AFinished
  }

  function Abstract(s: Sys): Atomic {
    Atomic(s.mailbox, seq(|s.threads|, t requires 0 <= t < |s.threads| => View(s.threads[t])))
  }

  function AMoveOf(m: Move): Option<AMove> {
    match m
    case Read(line) => Some(ARead(line))
    case Call => Some(ACall)
    case Expire => Some(AExpire)
    case CopyIn => Some(AExchange)
    case Decide => Some(ADecide)
    case _ => None
  }

  function AActs(acts: seq<Act>): seq<AAct> {
    if acts == [] then []
    else
      var m := AMoveOf(acts[0].move);
      (if m.Some? then [AAct(acts[0].t, m.value)] else []) + AActs(acts[1..])
  }

  // ---------------------------------------------------------------- refinement

  predicate InSection(pc: Pc) {
    pc.Holding? || pc.CopiedOut? || pc.CopiedIn?
  }

  /** The mutex does its work: only its holder is inside, and what the holder copied out is what is there. */
  predicate Excluded(s: Sys) {
    && (s.holder.Some? ==> s.holder.value < |s.threads|)
    && forall t :: 0 <= t < |s.threads| ==>
         && (InSection(s.threads[t].pc) <==> s.holder == Some(t))
         && (s.threads[t].pc.CopiedOut? ==> s.threads[t].local == s.mailbox)
  }

  lemma StepKeepsExcluded(s: Sys, t: nat, m: Move)
    requires Excluded(s) && Enabled(s, t, m)
    ensures Excluded(Step(s, t, m))
  {
  }

  /** Each fine step is an atomic step of the same thread or is not seen. */
  lemma StepRefines(s: Sys, t: nat, m: Move)
    requires Excluded(s) && Enabled(s, t, m)
    ensures match AMoveOf(m)
            case None => Abstract(Step(s, t, m)) == Abstract(s)
            case Some(am) => AEnabled(Abstract(s), t, am) && Abstract(Step(s, t, m)) == AStep(Abstract(s), t, am)
  {
    var a, b := Abstract(s), Abstract(Step(s, t, m));
    assert forall k :: 0 <= k < |s.threads| && k != t ==> b.threads[k] == a.threads[k];
    match AMoveOf(m) {
      case None => assert b.threads == a.threads;
      case Some(am) => assert b.threads == AStep(a, t, am).threads;
    }
  }

  /** Every interleaving of the fine-grained chat is one of the atomic exchange register. */
  lemma {:induction false} ChatRefinesRegister(s: Sys, acts: seq<Act>)
    requires Excluded(s) && Runs(s, acts)
    ensures ARuns(Abstract(s), AActs(acts)) && Abstract(End(s, acts)) == AEnd(Abstract(s), AActs(acts))
    decreases |acts|
  {
    if acts != [] {
      var t, m := acts[0].t, acts[0].move;
      StepKeepsExcluded(s, t, m);
      StepRefines(s, t, m);
      ChatRefinesRegister(Step(s, t, m), acts[1..]);
      var am, rest := AMoveOf(m), AActs(acts[1..]);
      if am.Some? {
        assert AActs(acts) == [AAct(t, am.value)] + rest;
        assert AActs(acts)[1..] == rest;
      } else {
        assert AActs(acts) == rest;
      }
    }
  }

  // ---------------------------------------------------------------- the code between lock and unlock, and the producer

  class ChatBuffer {
    var chatMsg: string

    constructor ()
      ensures chatMsg == ""
    {
      chatMsg := "";
    }

    /** With the mutex held this is the exchange of the atomic register. */
    method ExchangeChatMessages(newMsg: Option<string>) returns (oldMsg: string)
      modifies this
      ensures (oldMsg, chatMsg) == Exchanged(old(chatMsg), newMsg)
    {
      oldMsg := chatMsg;
      if newMsg.Some? {
        chatMsg := newMsg.value;
      } else {
        chatMsg := "";
      }
    }
  }

  /** The I/O thread: it posts the lines it reads up to and with the first quit message. `msg` is what
      happens to be in its buffer before it reads; the end of the input ends the run in an error check. */
  method IoTask(buffer: ChatBuffer, msg: string, stdin: seq<string>) returns (posts: seq<string>)
    modifies buffer
    ensures posts <= stdin
    ensures forall i :: 0 <= i < |posts| - 1 ==> posts[i] != "q"
    ensures msg == "q" ==> posts == []
    ensures msg != "q" && |posts| < |stdin| ==> posts != [] && posts[|posts| - 1] == "q"
    ensures posts != [] ==> buffer.chatMsg == posts[|posts| - 1]
  {
    posts := [];
    var line := msg;
    while line != QUIT_MSG && |posts| < |stdin|
      invariant posts <= stdin
      invariant msg == QUIT_MSG ==> posts == []
      invariant line == if posts == [] then msg else posts[|posts| - 1]
      invariant forall i :: 0 <= i < |posts| - 1 ==> posts[i] != QUIT_MSG
      invariant posts != [] ==> buffer.chatMsg == posts[|posts| - 1]
    {
      line := stdin[|posts|];
      var ignored := buffer.ExchangeChatMessages(Some(line));
      posts := posts + [line];
    }
  }
}
