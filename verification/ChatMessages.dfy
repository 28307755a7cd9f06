/** What becomes of the messages that are posted, and that the quit message can reach everyone. */
module ChatMessages {
  import opened Sockets
  import opened Chat
  import opened ChatQuit

  // ---------------------------------------------------------------- messages

  /** a can be got from b by leaving elements out. */
  predicate Subseq(a: seq<string>, b: seq<string>)
    decreases |b|
  {
    || a == []
    || (b != [] && (|| (a[|a| - 1] == b[|b| - 1] && Subseq(a[..|a| - 1], b[..|b| - 1]))
                    || Subseq(a, b[..|b| - 1])))
  }

  lemma SubseqExtend(a: seq<string>, b: seq<string>, x: string)
    requires Subseq(a, b)
    ensures Subseq(a, b + [x]) && Subseq(a + [x], b + [x])
  {
    assert (b + [x])[..|b|] == b && (a + [x])[..|a|] == a;
  }

  function Messages(posted: seq<string>): nat {
    if posted == [] then 0
    else Messages(posted[..|posted| - 1]) + if posted[|posted| - 1] != "" && posted[|posted| - 1] != "q" then 1 else 0
  }

  /** A message in the mailbox is the last one posted; what was taken comes from before it. */
  ghost predicate MessageInv(s: Sys) {
    && (if IsMessage(s.mailbox)
        then s.posted != [] && s.posted[|s.posted| - 1] == s.mailbox && Subseq(s.taken, s.posted[..|s.posted| - 1])
        else Subseq(s.taken, s.posted))
    && Messages(s.posted) == |s.taken| + s.overwritten + if IsMessage(s.mailbox) then 1 else 0
  }

  /** Posting the quit message back never overwrites a message. */
  lemma RepostFindsNothing(s: Sys, t: nat)
    requires TokenInv(s) && Enabled(s, t, CopyIn) && t > 0 && s.threads[t].pc.arg.Some?
    ensures s.threads[t].local == s.mailbox == ""
  {
    assert Carries(s, t);
    assert t in Carriers(s);
  }

  /** A message in the mailbox can be taken next, or left out. */
  lemma MailboxComesNext(s: Sys)
    requires MessageInv(s)
    ensures Subseq(s.taken, s.posted)
    ensures IsMessage(s.mailbox) ==> Subseq(s.taken + [s.mailbox], s.posted)
  {
    if IsMessage(s.mailbox) {
      var front := s.posted[..|s.posted| - 1];
      assert s.posted == front + [s.mailbox];
      SubseqExtend(s.taken, front, s.mailbox);
    }
  }

  lemma PostKeepsMessages(s: Sys)
    requires TokenInv(s) && MessageInv(s) && Enabled(s, 0, CopyIn)
    ensures MessageInv(Step(s, 0, CopyIn))
  {
    var line := Stored(s.threads[0].pc.arg);
    assert (s.posted + [line])[..|s.posted|] == s.posted;
    MailboxComesNext(s);
    SubseqExtend(s.taken, s.posted, line);
  }

  lemma TakeKeepsMessages(s: Sys, t: nat)
    requires TokenInv(s) && MessageInv(s) && Enabled(s, t, CopyIn) && t > 0
    ensures MessageInv(Step(s, t, CopyIn))
  {
    MailboxComesNext(s);
    assert s.taken + [] == s.taken;
    if s.threads[t].pc.arg.Some? {
      RepostFindsNothing(s, t);
    }
  }

  lemma StepKeepsMessages(s: Sys, t: nat, m: Move)
    requires TokenInv(s) && MessageInv(s) && Enabled(s, t, m)
    ensures MessageInv(Step(s, t, m))
  {
    if m.CopyIn? {
      if t == 0 {
        PostKeepsMessages(s);
      } else {
        TakeKeepsMessages(s, t);
      }
    }
  }

  lemma {:induction false} RunsKeepMessages(s: Sys, acts: seq<Act>)
    requires TokenInv(s) && MessageInv(s) && Runs(s, acts)
    ensures MessageInv(End(s, acts))
    decreases |acts|
  {
    if acts != [] {
      StepKeepsToken(s, acts[0].t, acts[0].move);
      StepKeepsMessages(s, acts[0].t, acts[0].move);
      RunsKeepMessages(Step(s, acts[0].t, acts[0].move), acts[1..]);
    }
  }

  /** At every interleaving, before quit and after, the messages taken by all network threads together are
      a subsequence of those posted, and each message posted was taken once, was overwritten by a later
      post, or is in the mailbox. */
  lemma EachMessageAtMostOnce(n: nat, acts: seq<Act>)
    requires Runs(Start(n), acts)
    ensures var s := End(Start(n), acts);
            && Subseq(s.taken, s.posted)
            && Messages(s.posted) == |s.taken| + s.overwritten + if s.mailbox != "" && s.mailbox != "q" then 1 else 0
  {
    StartIsOk(n);
    RunsKeepMessages(Start(n), acts);
    MailboxComesNext(End(Start(n), acts));
  }

  // ---------------------------------------------------------------- quit can reach everyone

  lemma {:induction false} RunsConcat(s: Sys, a: seq<Act>, b: seq<Act>)
    requires Runs(s, a) && Runs(End(s, a), b)
    ensures Runs(s, a + b) && End(s, a + b) == End(End(s, a), b)
    decreases |a|
  {
    if a == [] {
      assert a + b == b;
    } else {
      assert (a + b)[1..] == a[1..] + b;
      RunsConcat(Step(s, a[0].t, a[0].move), a[1..], b);
    }
  }

  /** What a thread does next on its way out. */
  function Next(pc: Pc): Move {
    match pc
    case Idle => Call
    case Wanting(arg) => Lock
    case Holding(arg) => CopyOut
    case CopiedOut(arg) => CopyIn
    case CopiedIn(arg) => Unlock
    case _ => Decide
  }

  /** Its steps to the end, if it finds the quit message when it next looks. */
  function StepsLeft(th: Thread): nat {
    match th.pc
    case Finished => 0
    case Returned(arg) => if arg.Some? then 1 else if th.local == QUIT_MSG then 6 else 12
    case CopiedIn(arg) => if arg.Some? then 2 else if th.local == QUIT_MSG then 7 else 13
    case CopiedOut(arg) => if arg.Some? then 3 else 8
    case Holding(arg) => if arg.Some? then 4 else 9
    case Wanting(arg) => if arg.Some? then 5 else 10
    case Idle => 11
  }

  /** The others stand as they were, and the quit message is still about. */
  ghost predicate OnlyMoved(s: Sys, s': Sys, t: nat) {
    && TokenInv(s') && QuitPosted(s') && |s'.threads| == |s.threads|
    && forall k :: 0 <= k < |s.threads| && k != t ==> s'.threads[k] == s.threads[k]
  }

  lemma MoveKeepsQuit(s: Sys, t: nat, m: Move)
    requires TokenInv(s) && QuitPosted(s) && Enabled(s, t, m)
    ensures OnlyMoved(s, Step(s, t, m), t)
  {
    StepKeepsToken(s, t, m);
  }

  /** The thread that has the mutex can give it back. */
  lemma {:induction false} Release(s: Sys, h: nat) returns (acts: seq<Act>)
    requires TokenInv(s) && QuitPosted(s) && s.holder == Some(h)
    ensures Runs(s, acts) && End(s, acts).holder.None? && OnlyMoved(s, End(s, acts), h)
    decreases if s.threads[h].pc.Holding? then 3 else if s.threads[h].pc.CopiedOut? then 2 else 1
  {
    var a := Act(h, Next(s.threads[h].pc));
    assert InSection(s.threads[h].pc);
    MoveKeepsQuit(s, h, a.move);
    var s1 := Step(s, h, a.move);
    if s.threads[h].pc.CopiedIn? {
      acts := [a];
      assert Runs(s1, []) && [a][1..] == [];
    } else {
      var rest := Release(s1, h);
      acts := [a] + rest;
      assert acts[1..] == rest;
    }
  }

  /** With the mutex free, a thread can run to its end: the one that carries the quit message, or any
      thread when the mailbox holds it. */
  lemma {:induction false} Leave(s: Sys, t: nat) returns (acts: seq<Act>)
    requires TokenInv(s) && QuitPosted(s) && t < |s.threads| && Carriers(s) <= {t}
    requires s.holder.None? || s.holder == Some(t)
    ensures Runs(s, acts) && OnlyMoved(s, End(s, acts), t)
    ensures End(s, acts).holder.None? && End(s, acts).threads[t].pc == Finished
    decreases StepsLeft(s.threads[t])
  {
    acts := [];
    if s.threads[t].pc != Finished {
      var a := Act(t, Next(s.threads[t].pc));
      LeaveStep(s, t);
      var rest := Leave(Step(s, t, a.move), t);
      acts := [a] + rest;
      assert acts[1..] == rest;
    }
  }

  /** The thread can take its next step, and is the only one that may carry the quit message after it. */
  lemma LeaveCarries(s: Sys, t: nat)
    requires TokenInv(s) && QuitPosted(s) && t < |s.threads| && Carriers(s) <= {t}
    requires (s.holder.None? || s.holder == Some(t)) && s.threads[t].pc != Finished
    ensures var m := Next(s.threads[t].pc);
            Enabled(s, t, m) && OnlyMoved(s, Step(s, t, m), t) && Carriers(Step(s, t, m)) <= {t}
  {
    var m := Next(s.threads[t].pc);
    MoveKeepsQuit(s, t, m);
    CarriersChange(s, t, m);
  }

  lemma LeaveStep(s: Sys, t: nat)
    requires TokenInv(s) && QuitPosted(s) && t < |s.threads| && Carriers(s) <= {t}
    requires (s.holder.None? || s.holder == Some(t)) && s.threads[t].pc != Finished
    ensures var m := Next(s.threads[t].pc);
            && Enabled(s, t, m) && OnlyMoved(s, Step(s, t, m), t) && Carriers(Step(s, t, m)) <= {t}
            && (Step(s, t, m).holder.None? || Step(s, t, m).holder == Some(t))
            && StepsLeft(Step(s, t, m).threads[t]) < StepsLeft(s.threads[t])
  {
    LeaveCarries(s, t);
    if s.threads[t].pc.CopiedOut? && s.threads[t].pc.arg.None? {
      assert t !in Carriers(s);
    }
  }

  function Unfinished(s: Sys): set<nat> {
    set t: nat | t < |s.threads| && s.threads[t].pc != Finished
  }

  /** From every state after the quit message was posted there is a way for every thread to end: no
      thread is ever stuck, and none is left behind without the message. */
  lemma {:induction false} QuitCanReachEveryone(s: Sys) returns (acts: seq<Act>)
    requires TokenInv(s) && QuitPosted(s)
    ensures Runs(s, acts) && forall t :: 0 <= t < |s.threads| ==> t < |End(s, acts).threads| && End(s, acts).threads[t].pc == Finished
  {
    if s.holder.Some? {
      var first := Release(s, s.holder.value);
      var rest := EveryoneLeaves(End(s, first));
      RunsConcat(s, first, rest);
      acts := first + rest;
    } else {
      acts := EveryoneLeaves(s);
    }
  }

  lemma {:induction false} EveryoneLeaves(s: Sys) returns (acts: seq<Act>)
    requires TokenInv(s) && QuitPosted(s) && s.holder.None?
    ensures Runs(s, acts) && |End(s, acts).threads| == |s.threads|
    ensures forall t :: 0 <= t < |s.threads| ==> End(s, acts).threads[t].pc == Finished
    decreases |Unfinished(s)|
  {
    acts := [];
    if Unfinished(s) != {} {
      var t := NextToLeave(s);
      var first := Leave(s, t);
      var s1 := End(s, first);
      assert Unfinished(s1) == Unfinished(s) - {t};
      var rest := EveryoneLeaves(s1);
      RunsConcat(s, first, rest);
      acts := first + rest;
    } else {
      assert forall t: nat :: t < |s.threads| && s.threads[t].pc != Finished ==> t in Unfinished(s);
    }
  }

  lemma NextToLeave(s: Sys) returns (t: nat)
    requires TokenInv(s) && QuitPosted(s) && Unfinished(s) != {}
    ensures t in Unfinished(s) && Carriers(s) <= {t}
  {
    if Carriers(s) == {} {
      t :| t in Unfinished(s);
    } else {
      t :| Carriers(s) == {t};
      assert t in Carriers(s);
    }
  }
}
