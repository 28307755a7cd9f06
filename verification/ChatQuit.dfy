/** The quit token and the messages: what holds at every interleaving of the chat. */
module ChatQuit {
  import opened Sockets
  import opened Chat

  // ---------------------------------------------------------------- the token

  /** The thread is between its take of the quit message and its re-post. */
  predicate Carries(s: Sys, t: nat)
    requires t < |s.threads|
  {
    var th := s.threads[t];
    && t > 0
    && match th.pc
       case CopiedIn(arg) => arg.None? && th.local == QUIT_MSG
       case Returned(arg) => arg.None? && th.local == QUIT_MSG
       case Wanting(arg) => arg.Some?
       case Holding(arg) => arg.Some?
       case CopiedOut(arg) => arg.Some?
       case _ => false
  }

  function Carriers(s: Sys): set<nat> {
    set t: nat | t < |s.threads| && Carries(s, t)
  }

  predicate QuitPosted(s: Sys) {
    s.posted != [] && s.posted[|s.posted| - 1] == "q"
  }

  /** The I/O thread has posted its last message. */
  predicate IoThrough(th: Thread) {
    th.pc == CopiedIn(Some(QUIT_MSG)) || th.pc == Returned(Some(QUIT_MSG)) || th.pc == Finished
  }

  ghost predicate TokenInv(s: Sys) {
    && Excluded(s) && |s.threads| > 0
    && (forall t :: 0 < t < |s.threads| && ArgOf(s.threads[t].pc).Some? ==> ArgOf(s.threads[t].pc).value == QUIT_MSG)
    && (QuitPosted(s) <==> IoThrough(s.threads[0]))
    && (forall t :: 0 <= t < |s.threads| && s.threads[t].pc.CopiedOut? && s.threads[t].local == QUIT_MSG ==> QuitPosted(s))
    && (!QuitPosted(s) ==> s.mailbox != QUIT_MSG && Carriers(s) == {})
    && (QuitPosted(s) ==> (s.mailbox == QUIT_MSG && Carriers(s) == {}) || (s.mailbox == "" && exists t :: Carriers(s) == {t}))
    && (s.acquired == s.reposted + |Carriers(s)|)
  }

  function ArgOf(pc: Pc): Option<string> {
    match pc
    case Wanting(arg) => arg
    case Holding(arg) => arg
    case CopiedOut(arg) => arg
    case CopiedIn(arg) => arg
    case Returned(arg) => arg
    case _ => None
  }

  lemma StartIsOk(n: nat)
    ensures TokenInv(Start(n))
  {
    assert Carriers(Start(n)) == {};
  }

  /** A step of t changes nothing about who else carries the token. */
  lemma CarriersChange(s: Sys, t: nat, m: Move)
    requires Enabled(s, t, m)
    ensures var s' := Step(s, t, m);
            Carriers(s') == Carriers(s) - {t} + if Carries(s', t) then {t} else {}
  {
    var s' := Step(s, t, m);
    assert forall k: nat :: k < |s.threads| && k != t ==> s'.threads[k] == s.threads[k];
    assert forall k: nat :: k < |s.threads| && k != t ==> (Carries(s', k) <==> Carries(s, k));
  }

  /** Only copying in moves the token. */
  lemma QuietKeepsToken(s: Sys, s': Sys, t: nat)
    requires TokenInv(s) && Excluded(s') && t < |s.threads| && |s'.threads| == |s.threads|
    requires s' == s.(threads := s.threads[t := s'.threads[t]], holder := s'.holder)
    requires t > 0 && ArgOf(s'.threads[t].pc).Some? ==> ArgOf(s'.threads[t].pc).value == QUIT_MSG
    requires t == 0 ==> (IoThrough(s'.threads[0]) <==> IoThrough(s.threads[0]))
    requires s'.threads[t].pc.CopiedOut? ==> s'.threads[t].local == s.mailbox
    requires Carriers(s') == Carriers(s)
    ensures TokenInv(s')
  {
    assert forall k :: 0 <= k < |s.threads| && k != t ==> s'.threads[k] == s.threads[k];
  }

  lemma QuietCarriers(s: Sys, t: nat, m: Move)
    requires Enabled(s, t, m) && !m.CopyIn?
    ensures Carriers(Step(s, t, m)) == Carriers(s)
  {
    CarriersChange(s, t, m);
    assert Carries(Step(s, t, m), t) == Carries(s, t);
    assert t in Carriers(s) <==> Carries(s, t);
  }

  lemma QuietThread(s: Sys, t: nat, m: Move)
    requires Enabled(s, t, m) && !m.CopyIn?
    ensures var s' := Step(s, t, m);
            && |s'.threads| == |s.threads|
            && s' == s.(threads := s.threads[t := s'.threads[t]], holder := s'.holder)
            && (t == 0 ==> (IoThrough(s'.threads[0]) <==> IoThrough(s.threads[0])))
            && (s'.threads[t].pc.CopiedOut? ==> s'.threads[t].local == s.mailbox)
            && (t > 0 ==> ArgOf(s'.threads[t].pc).None? || ArgOf(s'.threads[t].pc) == ArgOf(s.threads[t].pc)
                          || ArgOf(s'.threads[t].pc).value == QUIT_MSG)
  {
  }

  lemma StepKeepsToken(s: Sys, t: nat, m: Move)
    requires TokenInv(s) && Enabled(s, t, m)
    ensures TokenInv(Step(s, t, m))
  {
    if m.CopyIn? {
      CopyInKeepsToken(s, t);
    } else {
      StepKeepsExcluded(s, t, m);
      QuietCarriers(s, t, m);
      QuietThread(s, t, m);
      QuietKeepsToken(s, Step(s, t, m), t);
    }
  }

  /** The token is in one place. */
  lemma TokenPlace(s: Sys)
    requires TokenInv(s)
    ensures forall k :: k in Carriers(s) ==> Carriers(s) == {k} && s.mailbox == ""
    ensures s.mailbox == QUIT_MSG ==> QuitPosted(s) && Carriers(s) == {}
  {
  }

  /** A take, a re-post, or neither. */
  lemma CopyInCarriers(s: Sys, t: nat)
    requires Enabled(s, t, CopyIn) && s.threads[t].local == s.mailbox
    requires t in Carriers(s) ==> Carriers(s) == {t}
    requires s.mailbox == QUIT_MSG ==> Carriers(s) == {}
    ensures var s', th := Step(s, t, CopyIn), s.threads[t];
            if t > 0 && th.pc.arg.Some? then Carriers(s) == {t} && Carriers(s') == {}
            else if t > 0 && th.local == QUIT_MSG then Carriers(s') == {t}
            else Carriers(s') == Carriers(s)
  {
    CarriersChange(s, t, CopyIn);
    assert t in Carriers(s) <==> Carries(s, t);
  }

  lemma CopyInKeepsToken(s: Sys, t: nat)
    requires TokenInv(s) && Enabled(s, t, CopyIn)
    ensures TokenInv(Step(s, t, CopyIn))
  {
    TokenPlace(s);
    StepKeepsExcluded(s, t, CopyIn);
    CopyInCarriers(s, t);
  }

  lemma {:induction false} RunsKeepToken(s: Sys, acts: seq<Act>)
    requires TokenInv(s) && Runs(s, acts)
    ensures TokenInv(End(s, acts)) && |End(s, acts).threads| == |s.threads|
    decreases |acts|
  {
    if acts != [] {
      StepKeepsToken(s, acts[0].t, acts[0].move);
      RunsKeepToken(Step(s, acts[0].t, acts[0].move), acts[1..]);
    }
  }

  /** Once the I/O thread has posted the quit message, at every interleaving exactly one of two things
      holds: the mailbox contains it, or exactly one network thread is between its take and its re-post.
      Every take leads to a re-post, and when no network thread is left the mailbox still holds it. */
  lemma QuitTokenIsNeverLost(n: nat, acts: seq<Act>)
    requires Runs(Start(n), acts)
    ensures var s := End(Start(n), acts);
            && (QuitPosted(s) ==> ((s.mailbox == "q") <==> |Carriers(s)| != 1) && |Carriers(s)| <= 1)
            && (!QuitPosted(s) ==> s.mailbox != "q" && s.acquired == 0)
            && s.acquired == s.reposted + |Carriers(s)|
            && (QuitPosted(s) && (forall t :: 0 < t < |s.threads| ==> s.threads[t].pc.Finished?) ==> s.mailbox == "q")
  {
    StartIsOk(n);
    RunsKeepToken(Start(n), acts);
    RunsKeepCounts(Start(n), acts);
    var s := End(Start(n), acts);
    if Carriers(s) != {} {
      var t :| Carriers(s) == {t};
      assert Carries(s, t) by {
        assert t in Carriers(s);
      }
    }
  }

  // ---------------------------------------------------------------- one thread fewer for each acquisition

  /** The thread has posted the quit message back, or has ended. */
  predicate Leaving(s: Sys, t: nat)
    requires t < |s.threads|
  {
    && t > 0
    && match s.threads[t].pc
       case CopiedIn(arg) => arg.Some?
       case Returned(arg) => arg.Some?
       case Finished => true
       case _ => false
  }

  function Leavers(s: Sys): set<nat> {
    set t: nat | t < |s.threads| && Leaving(s, t)
  }

  ghost predicate CountInv(s: Sys) {
    && s.reposted <= |Leavers(s)|
    && (!QuitPosted(s) ==> s.acquired == 0)
  }

  lemma LeaversChange(s: Sys, t: nat, m: Move)
    requires Enabled(s, t, m)
    ensures var s' := Step(s, t, m);
            && Leavers(s) <= Leavers(s')
            && (s'.reposted > s.reposted ==> s'.reposted == s.reposted + 1 && t !in Leavers(s) && t in Leavers(s'))
  {
    var s' := Step(s, t, m);
    assert forall k: nat :: k < |s.threads| && k != t ==> s'.threads[k] == s.threads[k];
    assert forall k: nat :: k < |s.threads| && k != t ==> (Leaving(s', k) <==> Leaving(s, k));
  }

  lemma StepKeepsCounts(s: Sys, t: nat, m: Move)
    requires TokenInv(s) && CountInv(s) && Enabled(s, t, m)
    ensures CountInv(Step(s, t, m))
  {
    var s' := Step(s, t, m);
    LeaversChange(s, t, m);
    if s'.reposted > s.reposted {
      SubsetIsNotLarger(Leavers(s) + {t}, Leavers(s'));
    } else {
      SubsetIsNotLarger(Leavers(s), Leavers(s'));
    }
  }

  lemma {:induction false} RunsKeepCounts(s: Sys, acts: seq<Act>)
    requires TokenInv(s) && CountInv(s) && Runs(s, acts)
    ensures CountInv(End(s, acts))
    decreases |acts|
  {
    if acts != [] {
      StepKeepsToken(s, acts[0].t, acts[0].move);
      StepKeepsCounts(s, acts[0].t, acts[0].move);
      RunsKeepCounts(Step(s, acts[0].t, acts[0].move), acts[1..]);
    }
  }

  /** A thread that leaves does not come back. */
  lemma LeavingIsForGood(s: Sys, t: nat, m: Move, k: nat)
    requires Enabled(s, t, m) && k < |s.threads| && Leaving(s, k)
    ensures k < |Step(s, t, m).threads| && Leaving(Step(s, t, m), k)
  {
  }

  /** Each take of the quit message costs a running network thread: there are never more takes than
      threads that carry it, have posted it back, or have ended. */
  lemma AcquisitionsUseUpThreads(n: nat, acts: seq<Act>)
    requires Runs(Start(n), acts)
    ensures var s := End(Start(n), acts);
            s.acquired <= |Carriers(s)| + |Leavers(s)| && Carriers(s) !! Leavers(s) && s.acquired <= n
  {
    StartIsOk(n);
    RunsKeepToken(Start(n), acts);
    assert Leavers(Start(n)) == {};
    RunsKeepCounts(Start(n), acts);
    var s := End(Start(n), acts);
    assert Carriers(s) !! Leavers(s);
    NetworkIdsCount(n);
    SubsetIsNotLarger(Carriers(s) + Leavers(s), NetworkIds(n));
  }

  function NetworkIds(n: nat): set<nat> {
    if n == 0 then {} else NetworkIds(n - 1) + {n}
  }

  lemma {:induction false} NetworkIdsCount(n: nat)
    ensures |NetworkIds(n)| == n && forall t: nat :: t in NetworkIds(n) <==> 0 < t <= n
  {
    if n > 0 {
      NetworkIdsCount(n - 1);
    }
  }

  lemma {:induction false} SubsetIsNotLarger(a: set<nat>, b: set<nat>)
    requires a <= b
    ensures |a| <= |b|
  {
    if a != {} {
      var x :| x in a;
      SubsetIsNotLarger(a - {x}, b - {x});
    }
  }
}
