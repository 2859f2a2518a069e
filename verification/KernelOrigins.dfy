/** Where the content of the file and of the running kernel comes from, in every interleaving. */
module KernelOrigins {
  import opened Wrappers
  import opened Kernel
  import opened KernelInterleaving

  /** The file had this content at one of the first states. */
  ghost predicate Was(trace: seq<State>, n: nat, content: Option<Bytes>) {
    exists m: nat :: m < |trace| && m <= n && trace[m].file == content
  }

  /** What goroutines remember, and what runs, was in the file at some point. */
  ghost predicate FromFile(trace: seq<State>, n: nat)
    requires n < |trace|
  {
    && (trace[n].box.Some? ==> Was(trace, n, trace[n].box))
    && forall t | t in trace[n].threads :: Remembers(trace, n, trace[n].threads[t])
  }

  ghost predicate Remembers(trace: seq<State>, n: nat, pc: PC) {
    match pc
    case BeforeWrite(_, previous) => Was(trace, n, previous)
    case BeforeStop(previous, _) => Was(trace, n, previous)
    case BeforeStart(previous, _) => Was(trace, n, previous)
    case Starting(previous, _, read) => Was(trace, n, previous) && Was(trace, n, Some(read))
    case BeforeRollback(previous) => Was(trace, n, previous)
    case PlainStarting(read) => Was(trace, n, Some(read))
    case _ => true
  }

  lemma WasLater(trace: seq<State>, n: nat, content: Option<Bytes>)
    requires Was(trace, n, content)
    ensures Was(trace, n + 1, content)
  {
    var m: nat :| m < |trace| && m <= n && trace[m].file == content;
    assert m <= n + 1;
  }

  lemma WasNow(trace: seq<State>, n: nat)
    requires n < |trace|
    ensures Was(trace, n, trace[n].file)
  {}

  lemma RemembersLater(trace: seq<State>, n: nat, pc: PC)
    requires Remembers(trace, n, pc)
    ensures Remembers(trace, n + 1, pc)
  {
    forall content | Was(trace, n, content)
      ensures Was(trace, n + 1, content)
    {
      WasLater(trace, n, content);
    }
  }

  /** The goroutine that makes a step remembers nothing else afterwards. */
  lemma StepRemembers(trace: seq<State>, n: nat, t: nat)
    requires n + 1 < |trace| && FromFile(trace, n) && Step(trace[n], t, trace[n + 1])
    ensures Remembers(trace, n + 1, At(trace[n + 1], t))
    ensures trace[n + 1].box.Some? ==> Was(trace, n + 1, trace[n + 1].box)
  {
    WasNow(trace, n);
    assert t in trace[n].threads ==> Remembers(trace, n, trace[n].threads[t]);
    forall content | Was(trace, n, content)
      ensures Was(trace, n + 1, content)
    {
      WasLater(trace, n, content);
    }
  }

  lemma OneMoves(st: State, t: nat, next: State)
    requires Step(st, t, next)
    ensures t in next.threads && next.threads == st.threads[t := next.threads[t]]
  {}

  lemma StepFromFile(trace: seq<State>, n: nat, t: nat)
    requires n + 1 < |trace| && FromFile(trace, n) && Step(trace[n], t, trace[n + 1])
    ensures FromFile(trace, n + 1)
  {
    StepRemembers(trace, n, t);
    OneMoves(trace[n], t, trace[n + 1]);
    OthersRemember(trace, n, Some(t));
  }

  lemma OutsideFromFile(trace: seq<State>, n: nat)
    requires n + 1 < |trace| && FromFile(trace, n) && OutsideWrite(trace[n], trace[n + 1])
    ensures FromFile(trace, n + 1)
  {
    OthersRemember(trace, n, None);
    if trace[n].box.Some? {
      WasLater(trace, n, trace[n].box);
    }
  }

  lemma OthersRemember(trace: seq<State>, n: nat, mover: Option<nat>)
    requires n + 1 < |trace| && FromFile(trace, n)
    requires forall u | u in trace[n + 1].threads && mover != Some(u) ::
               u in trace[n].threads && trace[n].threads[u] == trace[n + 1].threads[u]
    ensures forall u | u in trace[n + 1].threads && mover != Some(u) :: Remembers(trace, n + 1, trace[n + 1].threads[u])
  {
    forall u | u in trace[n + 1].threads && mover != Some(u)
      ensures Remembers(trace, n + 1, trace[n + 1].threads[u])
    {
      RemembersLater(trace, n, trace[n].threads[u]);
    }
  }

  lemma {:induction false} RunFromFile(trace: seq<State>, n: nat)
    requires IsRun(trace) && n < |trace| && trace[0].threads == map[] && trace[0].box == None
    ensures FromFile(trace, n)
  {
    if n > 0 {
      RunFromFile(trace, n - 1);
      var m := n - 1;
      assert Steps(trace[m], trace[m + 1]);
      if OutsideWrite(trace[m], trace[m + 1]) {
        OutsideFromFile(trace, m);
      } else {
        var t: nat :| Step(trace[m], t, trace[m + 1]);
        StepFromFile(trace, m, t);
      }
    }
  }

  /** Whatever is interleaved: the kernel only ever runs a configuration that the file had at some point. */
  lemma {:induction false} OnlyFileContentRuns(trace: seq<State>, n: nat)
    requires IsRun(trace) && n < |trace| && trace[0].threads == map[] && trace[0].box == None
    requires trace[n].box.Some?
    ensures exists m: nat :: m <= n && m < |trace| && trace[m].file == trace[n].box
  {
    RunFromFile(trace, n);
  }

  /** A goroutine is about to write the body that it was called with. */
  ghost predicate Writes(st: State, body: Bytes) {
    exists t, previous :: t in st.threads && st.threads[t] == BeforeWrite(body, previous)
  }

  /** The file changes in three ways: someone else writes it, a configuration change writes its new body, or one is
      rolled back and what the file had before is there again. */
  lemma {:induction false} FileChangesOnlyBy(trace: seq<State>, n: nat)
    requires IsRun(trace) && n + 1 < |trace| && trace[0].threads == map[] && trace[0].box == None
    requires trace[n + 1].file != trace[n].file
    ensures || OutsideWrite(trace[n], trace[n + 1])
            || (trace[n + 1].file.Some? && Writes(trace[n], trace[n + 1].file.value))
            || Was(trace, n, trace[n + 1].file)
  {
    RunFromFile(trace, n);
    assert Steps(trace[n], trace[n + 1]);
    if !OutsideWrite(trace[n], trace[n + 1]) {
      var t: nat :| Step(trace[n], t, trace[n + 1]);
      assert t in trace[n].threads ==> Remembers(trace, n, trace[n].threads[t]);
    }
  }
}
