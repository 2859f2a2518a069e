/** The sync as a commit to two stores, the configuration file and the list of managed groups, and what
    holds over every run of edits and syncs. */
module NodesSyncRuns {
  import opened Wrappers
  import opened GoValue
  import opened NodesSync
  import opened NodesSyncTheorems

  /** Which steps of one sync fail. */
  datatype Faults = Faults(read: bool, write: bool, groups: bool, rollback: bool)

  /** The configuration file, decoded. The JSON text `null` decodes to a nil map. */
  datatype ConfigFile = Unreadable | Null | Decoded(value: Object)

  /** The configuration file, and the groups in the settings store. */
  datatype State = State(config: ConfigFile, groups: seq<string>)

  /** One sync: the nodes and subscriptions of that moment, and what fails. */
  datatype Attempt = Attempt(input: Input, faults: Faults)

  /** What a commit leaves in the two stores: both new, both old, or, if the groups cannot be written and
      the file cannot be written back, a new file with old groups. */
  function Committed(st: State, next: Object, groupTags: seq<string>, faults: Faults): State {
    if faults.write then st
    else if !faults.groups then State(Decoded(next), groupTags)
    else if !faults.rollback then st
    else st.(config := Decoded(next))
  }

  predicate ReachesCommit(st: State, a: Attempt) {
    st.config.Decoded? && !a.faults.read && InputOk(a.input)
  }

  function Step(st: State, a: Attempt): State {
    if !ReachesCommit(st, a) then st
    else
      Committed(st, SyncedConfig(st.config.value, st.groups, a.input), GroupTags(a.input.subscriptions), a.faults)
  }

  predicate Succeeds(st: State, a: Attempt) {
    ReachesCommit(st, a) && !a.faults.write && !a.faults.groups
  }

  /** The groups could not be written and the file could not be written back. */
  predicate DoubleFault(a: Attempt) {
    !a.faults.write && a.faults.groups && a.faults.rollback
  }

  class SyncStores {
    var config: ConfigFile
    var groups: seq<string>

    constructor (config: ConfigFile, groups: seq<string>)
      ensures Stored() == State(config, groups)
    {
      this.config, this.groups := config, groups;
    }

    function Stored(): State
      reads this
    {
      State(config, groups)
    }

    /** `syncCommit.write`: the file first, then the groups; the file is written back when that fails. */
    method Commit(next: Object, groupTags: seq<string>, previous: Object, faults: Faults)
      returns (failure: Option<Error>)
      requires config == Decoded(previous)
      modifies this
      ensures failure == if faults.write || faults.groups then Some(Storage) else None
      ensures Stored() == Committed(old(Stored()), next, groupTags, faults)
    {
      if faults.write {
        return Some(Storage);
      }
      config := Decoded(next);
      if faults.groups {
        if !faults.rollback {
          config := Decoded(previous);
        }
        return Some(Storage);
      }
      groups := groupTags;
      return None;
    }

    /** `syncOutboundsToConfig`; the first write to a nil map panics. */
    method Sync(a: Attempt) returns (failure: Option<Error>)
      modifies this
      ensures failure == None <==> Succeeds(old(Stored()), a)
      ensures failure == Some(Panic) <==> old(config).Null? && !a.faults.read && InputOk(a.input)
      ensures failure == Some(BadRaw) <==> !old(config).Unreadable? && !a.faults.read && !InputOk(a.input)
      ensures Stored() == Step(old(Stored()), a)
    {
      if config.Unreadable? || a.faults.read {
        return Some(Storage);
      }
      var previous := if config.Decoded? then config.value else map[];
      var reconciled := Reconcile(ExistingOutbounds(previous), groups, a.input);
      if reconciled.Err? {
        return Some(reconciled.error);
      }
      if config.Null? {
        return Some(Panic);
      }
      var next := WithRouteFinal(previous["outbounds" := List(reconciled.value.0)]);
      failure := Commit(next, reconciled.value.1, previous, a.faults);
    }
  }

  /** One sync after the other on the same stores. */
  method SyncAll(stores: SyncStores, attempts: seq<Attempt>)
    modifies stores
    ensures stores.Stored() == Run(old(stores.Stored()), attempts)
  {
    assert attempts[..0] == [];
    for i := 0 to |attempts|
      invariant stores.Stored() == Run(old(stores.Stored()), attempts[..i])
    {
      assert attempts[..i + 1][..i] == attempts[..i];
      var failure := stores.Sync(attempts[i]);
    }
    assert attempts[..|attempts|] == attempts;
  }

  /** The part of a sync between reading and committing. */
  method Reconcile(existing: seq<Val>, previous: seq<string>, input: Input)
    returns (r: Result<(seq<Val>, seq<string>), Error>)
    ensures r == if InputOk(input)
                 then Ok((SyncedOutbounds(existing, previous, input), GroupTags(input.subscriptions)))
                 else Err(BadRaw)
  {
    var byTag := IndexExistingOutbounds(existing);
    var managedGroups := ManagedGroups(previous, input.subscriptions);
    var preserved := PreserveExistingOutbounds(existing, managedGroups);
    var appended := AppendManagedOutbounds(preserved, input.nodes, byTag, existing);
    if appended.Err? {
      BadRawInNodes(input);
      return Err(appended.error);
    }
    var outbounds := appended.value;
    for i := 0 to |input.subscriptions|
      invariant forall o | o in input.nodes + SubscriptionOutbounds(input.subscriptions[..i]) :: RawOk(o)
      invariant outbounds ==
                preserved + AllBuilt(existing, input.nodes + SubscriptionOutbounds(input.subscriptions[..i]))
    {
      var s := input.subscriptions[i];
      SubscriptionPrefix(input.subscriptions, i);
      appended := AppendManagedOutbounds(outbounds, s.outbounds, byTag, existing);
      if appended.Err? {
        BadRawInSubscription(input, i);
        return Err(appended.error);
      }
      AppendBuilt(existing, input.nodes, SubscriptionOutbounds(input.subscriptions[..i]), s.outbounds, preserved);
      outbounds := appended.value;
    }
    assert input.subscriptions[..|input.subscriptions|] == input.subscriptions;
    var proxyTags := CollectProxyTags(outbounds, MemberTags(input.subscriptions));
    var groupTags: seq<string>;
    outbounds, groupTags := AppendGroups(outbounds, input.subscriptions, input.defaults, byTag, existing);
    outbounds := UpsertProxySelector(outbounds, groupTags + proxyTags);
    return Ok((outbounds, groupTags));
  }

  lemma BadRawInNodes(input: Input)
    requires !forall o | o in input.nodes :: RawOk(o)
    ensures !InputOk(input)
  {
    var o :| o in input.nodes && !RawOk(o);
    assert o in Managed(input);
  }

  lemma {:induction false} SubscriptionConcat(a: seq<Subscription>, b: seq<Subscription>)
    ensures SubscriptionOutbounds(a + b) == SubscriptionOutbounds(a) + SubscriptionOutbounds(b)
  {
    if a == [] {
      assert a + b == b;
    } else {
      assert (a + b)[1..] == a[1..] + b;
      SubscriptionConcat(a[1..], b);
    }
  }

  /** The outbounds of the first subscriptions, one more subscription at a time. */
  lemma SubscriptionPrefix(subscriptions: seq<Subscription>, i: nat)
    requires i < |subscriptions|
    ensures SubscriptionOutbounds(subscriptions[..i + 1]) ==
            SubscriptionOutbounds(subscriptions[..i]) + subscriptions[i].outbounds
    ensures forall o | o in subscriptions[i].outbounds :: o in SubscriptionOutbounds(subscriptions)
  {
    assert subscriptions[..i + 1] == subscriptions[..i] + [subscriptions[i]];
    SubscriptionConcat(subscriptions[..i], [subscriptions[i]]);
    assert SubscriptionOutbounds([subscriptions[i]]) == subscriptions[i].outbounds;
    assert subscriptions == subscriptions[..i + 1] + subscriptions[i + 1..];
    SubscriptionConcat(subscriptions[..i + 1], subscriptions[i + 1..]);
  }

  lemma BadRawInSubscription(input: Input, i: nat)
    requires i < |input.subscriptions| && !forall o | o in input.subscriptions[i].outbounds :: RawOk(o)
    ensures !InputOk(input)
  {
    var o :| o in input.subscriptions[i].outbounds && !RawOk(o);
    SubscriptionPrefix(input.subscriptions, i);
    assert o in Managed(input);
  }

  lemma AllBuiltConcat(existing: seq<Val>, a: seq<Outbound>, b: seq<Outbound>)
    ensures AllBuilt(existing, a + b) == AllBuilt(existing, a) + AllBuilt(existing, b)
  {}

  lemma AppendBuilt(existing: seq<Val>, nodes: seq<Outbound>, some: seq<Outbound>, more: seq<Outbound>,
                    preserved: seq<Val>)
    ensures preserved + AllBuilt(existing, nodes + some) + AllBuilt(existing, more) ==
            preserved + AllBuilt(existing, nodes + (some + more))
  {
    assert nodes + (some + more) == nodes + some + more;
    AllBuiltConcat(existing, nodes + some, more);
  }

  // ---- Runs ----

  function Run(st: State, attempts: seq<Attempt>): State {
    if attempts == [] then st else Step(Run(st, attempts[..|attempts| - 1]), attempts[|attempts| - 1])
  }

  function OutboundsOf(st: State): seq<Val> {
    if st.config.Decoded? then ExistingOutbounds(st.config.value) else []
  }

  /** What a sync leaves, whatever fails: success replaces both stores, a double fault just the file, and
      any other failure neither. */
  lemma StepOutcome(st: State, a: Attempt)
    ensures var next := Step(st, a);
            (Succeeds(st, a) ==>
               next == State(Decoded(SyncedConfig(st.config.value, st.groups, a.input)),
                             GroupTags(a.input.subscriptions)))
            && (ReachesCommit(st, a) && DoubleFault(a) ==>
                  next == State(Decoded(SyncedConfig(st.config.value, st.groups, a.input)), st.groups))
            && (!Succeeds(st, a) && !(ReachesCommit(st, a) && DoubleFault(a)) ==> next == st)
  {}

  /** The position behind the last sync of the run that succeeded; 0 if none did. */
  function LastSuccess(st: State, attempts: seq<Attempt>): (n: nat)
    ensures n <= |attempts|
    ensures n > 0 ==> Succeeds(Run(st, attempts[..n - 1]), attempts[n - 1])
  {
    if attempts == [] then 0
    else
      var init := attempts[..|attempts| - 1];
      if Succeeds(Run(st, init), attempts[|attempts| - 1]) then |attempts|
      else
        var n := LastSuccess(st, init);
        assert n > 0 ==> init[..n - 1] == attempts[..n - 1];
        n
  }

  ghost predicate NoDoubleFault(attempts: seq<Attempt>) {
    forall a | a in attempts :: !DoubleFault(a)
  }

  /** The persisted groups are always those of the last sync that succeeded, whichever steps of the others
      failed. */
  lemma {:induction false} RunGroups(st: State, attempts: seq<Attempt>)
    ensures var n := LastSuccess(st, attempts);
            Run(st, attempts).groups == if n > 0 then GroupTags(attempts[n - 1].input.subscriptions) else st.groups
  {
    if attempts != [] {
      RunGroups(st, attempts[..|attempts| - 1]);
      StepOutcome(Run(st, attempts[..|attempts| - 1]), attempts[|attempts| - 1]);
    }
  }

  /** A sync that neither succeeds nor meets a double fault leaves both stores as they are. */
  lemma FailureKeeps(st: State, a: Attempt)
    requires !Succeeds(st, a) && !DoubleFault(a)
    ensures Step(st, a) == st
  {}

  /** Without a double fault both stores are as the last successful sync left them. */
  lemma {:induction false} RunIsLastSuccess(st: State, attempts: seq<Attempt>)
    requires NoDoubleFault(attempts)
    ensures Run(st, attempts) == Run(st, attempts[..LastSuccess(st, attempts)])
  {
    if attempts == [] {
      assert attempts[..0] == attempts;
    } else {
      var init, last := attempts[..|attempts| - 1], attempts[|attempts| - 1];
      assert forall a | a in init :: a in attempts;
      assert last in attempts;
      if Succeeds(Run(st, init), last) {
        assert attempts[..|attempts|] == attempts;
      } else {
        FailureKeeps(Run(st, init), last);
        RunIsLastSuccess(st, init);
        assert init[..LastSuccess(st, init)] == attempts[..LastSuccess(st, init)];
      }
    }
  }

  lemma RunPrefix(st: State, attempts: seq<Attempt>, n: nat)
    requires 0 < n <= |attempts|
    ensures Run(st, attempts[..n]) == Step(Run(st, attempts[..n - 1]), attempts[n - 1])
  {
    assert attempts[..n][..n - 1] == attempts[..n - 1];
  }

  lemma SuccessWrites(st: State, a: Attempt)
    requires Succeeds(st, a)
    ensures Step(st, a) ==
            State(Decoded(SyncedConfig(st.config.value, st.groups, a.input)), GroupTags(a.input.subscriptions))
  {}

  /** Without a double fault file and groups never part: both were written by the same sync, the last
      successful one, or neither was written at all. */
  lemma StoresAgree(st: State, attempts: seq<Attempt>)
    requires NoDoubleFault(attempts)
    ensures var n := LastSuccess(st, attempts);
            if n == 0 then Run(st, attempts) == st
            else
              var before, input := Run(st, attempts[..n - 1]), attempts[n - 1].input;
              before.config.Decoded?
              && Run(st, attempts) ==
                 State(Decoded(SyncedConfig(before.config.value, before.groups, input)), GroupTags(input.subscriptions))
  {
    var n := LastSuccess(st, attempts);
    RunIsLastSuccess(st, attempts);
    if n > 0 {
      RunPrefix(st, attempts, n);
      SuccessWrites(Run(st, attempts[..n - 1]), attempts[n - 1]);
    } else {
      assert attempts[..0] == [];
    }
  }

  /** Clean tags, and no managed outbound that poses as a group. */
  ghost predicate GroupFree(input: Input) {
    TagsOk(input) && forall o | o in Managed(input) :: !IsGroupType(o.kind)
  }

  ghost predicate GroupFreeRun(attempts: seq<Attempt>) {
    forall a | a in attempts :: GroupFree(a.input)
  }

  /** Clean tags, and only managed types that a sync replaces. */
  ghost predicate CleanInput(input: Input) {
    TagsOk(input) && forall o | o in Managed(input) :: IsReplacedType(o.kind)
  }

  ghost predicate CleanRun(attempts: seq<Attempt>) {
    forall a | a in attempts :: CleanInput(a.input)
  }

  /** A group entry under a tag that a sync generated and wrote is one of the current groups, or the proxy
      selector. */
  ghost predicate NoStaleGroup(outbounds: seq<Val>, generated: set<string>, groups: seq<string>) {
    forall v | v in outbounds && IsGroupType(TypeOf(v)) && TagOf(v) in generated ::
      TagOf(v) in groups || TagOf(v) == "proxy"
  }

  lemma PreservedGroup(existing: seq<Val>, groups: set<string>, v: Val)
    requires v in Preserved(existing, groups) && IsGroupType(TypeOf(v))
    ensures v in existing && TagOf(v) !in groups
  {
    KeptMembers(existing, groups);
  }

  lemma BuiltIsNoGroup(existing: seq<Val>, input: Input, v: Val)
    requires GroupFree(input) && v in AllBuilt(existing, Managed(input))
    ensures !IsGroupType(TypeOf(v))
  {
    BuiltMembers(existing, input);
    var i :| 0 <= i < |Managed(input)| && AllBuilt(existing, Managed(input))[i] == v;
    assert Managed(input)[i] in Managed(input);
  }

  /** Where a group entry of a synced list comes from. */
  lemma SyncedMembers(existing: seq<Val>, previous: seq<string>, input: Input, v: Val)
    requires GroupFree(input) && v in SyncedOutbounds(existing, previous, input) && IsGroupType(TypeOf(v))
    ensures TagOf(v) in GroupTags(input.subscriptions) || TagOf(v) == "proxy"
            || (v in existing && TagOf(v) !in ManagedGroups(previous, input.subscriptions))
  {
    SyncedShape(existing, previous, input);
    var groups := ManagedGroups(previous, input.subscriptions);
    if v in AllBuilt(existing, Managed(input)) {
      BuiltIsNoGroup(existing, input, v);
    } else if v in Preserved(existing, groups) {
      PreservedGroup(existing, groups, v);
    } else if v in GroupEntries(existing, input.subscriptions, input.defaults) {
      GroupsShape(existing, input);
    }
  }

  ghost predicate HasGroup(outbounds: seq<Val>, tag: string) {
    exists v :: v in outbounds && IsGroupType(TypeOf(v)) && TagOf(v) == tag
  }

  lemma SyncedGroupFrom(existing: seq<Val>, previous: seq<string>, input: Input, tag: string)
    requires GroupFree(input) && tag != "proxy" && HasGroup(SyncedOutbounds(existing, previous, input), tag)
    ensures tag in GroupTags(input.subscriptions)
            || (HasGroup(existing, tag) && tag !in ManagedGroups(previous, input.subscriptions))
  {
    var v :| v in SyncedOutbounds(existing, previous, input) && IsGroupType(TypeOf(v)) && TagOf(v) == tag;
    SyncedMembers(existing, previous, input, v);
  }

  lemma GeneratedGroupIsThere(existing: seq<Val>, previous: seq<string>, input: Input, tag: string)
    requires TagsOk(input) && tag in GroupTags(input.subscriptions)
    ensures HasGroup(SyncedOutbounds(existing, previous, input), tag)
  {
    GroupTagPresent(existing, input.subscriptions, input.defaults, tag);
    var w :| w in GroupEntries(existing, input.subscriptions, input.defaults) && TagOf(w) == tag;
    GeneratedIsSynced(existing, previous, input, w);
  }

  lemma OtherGroupStays(existing: seq<Val>, previous: seq<string>, input: Input, tag: string)
    requires TagsOk(input) && tag != "proxy" && HasGroup(existing, tag)
    requires tag !in ManagedGroups(previous, input.subscriptions)
    ensures HasGroup(SyncedOutbounds(existing, previous, input), tag)
  {
    var v :| v in existing && IsGroupType(TypeOf(v)) && TagOf(v) == tag;
    UnmanagedGroupStays(existing, previous, input, v);
  }

  /** A synced list has a group under a tag if and only if it was generated, or was there and not managed. */
  lemma {:induction false} SyncedGroupIff(existing: seq<Val>, previous: seq<string>, input: Input, tag: string)
    requires GroupFree(input) && tag != "proxy"
    ensures HasGroup(SyncedOutbounds(existing, previous, input), tag) <==>
            tag in GroupTags(input.subscriptions)
            || (HasGroup(existing, tag) && tag !in ManagedGroups(previous, input.subscriptions))
  {
    if HasGroup(SyncedOutbounds(existing, previous, input), tag) {
      SyncedGroupFrom(existing, previous, input, tag);
    }
    if tag in GroupTags(input.subscriptions) {
      GeneratedGroupIsThere(existing, previous, input, tag);
    } else if HasGroup(existing, tag) && tag !in ManagedGroups(previous, input.subscriptions) {
      OtherGroupStays(existing, previous, input, tag);
    }
  }

  /** The sync writes the file: it succeeds, or meets a double fault. */
  predicate Writes(st: State, a: Attempt) {
    ReachesCommit(st, a) && !a.faults.write && (!a.faults.groups || a.faults.rollback)
  }

  function TagSet(input: Input): set<string> {
    set tag | tag in GroupTags(input.subscriptions)
  }

  /** The tags under which a sync of the run wrote a group. */
  ghost function Generated(st: State, attempts: seq<Attempt>): set<string> {
    if attempts == [] then {}
    else
      var init, last := attempts[..|attempts| - 1], attempts[|attempts| - 1];
      Generated(st, init) + if Writes(Run(st, init), last) then TagSet(last.input) else {}
  }

  /** The tags of groups that the store has lost track of: a double fault adds those it wrote, and each write
      takes away those it manages. */
  ghost function Lost(st: State, attempts: seq<Attempt>): set<string> {
    if attempts == [] then {}
    else
      var init, last := attempts[..|attempts| - 1], attempts[|attempts| - 1];
      if Writes(Run(st, init), last) then LostAfter(Lost(st, init), Run(st, init), last) else Lost(st, init)
  }

  ghost function LostAfter(lost: set<string>, before: State, a: Attempt): set<string> {
    lost - ManagedGroups(before.groups, a.input.subscriptions)
    + set tag | tag in TagSet(a.input) && tag !in Step(before, a).groups
  }

  lemma StepOutbounds(st: State, a: Attempt)
    requires Step(st, a) != st
    ensures Writes(st, a) && OutboundsOf(Step(st, a)) == SyncedOutbounds(OutboundsOf(st), st.groups, a.input)
  {}

  lemma StepWrites(st: State, a: Attempt)
    requires Writes(st, a)
    ensures OutboundsOf(Step(st, a)) == SyncedOutbounds(OutboundsOf(st), st.groups, a.input)
    ensures Step(st, a).groups == if Succeeds(st, a) then GroupTags(a.input.subscriptions) else st.groups
  {}

  lemma StepKeeps(st: State, a: Attempt)
    requires !Writes(st, a)
    ensures Step(st, a) == st
  {}

  ghost predicate Stale(st: State, tag: string) {
    HasGroup(OutboundsOf(st), tag) && tag !in st.groups
  }

  /** The stale groups are exactly the lost ones, whatever the groups are that were generated before. */
  ghost predicate Tracked(st: State, generated: set<string>, lost: set<string>) {
    lost <= generated && "" !in generated && "proxy" !in generated
    && forall tag | tag in generated :: Stale(st, tag) <==> tag in lost
  }

  lemma ManagedCovers(groups: seq<string>, input: Input, tag: string)
    requires tag != "" && (tag in groups || tag in GroupTags(input.subscriptions))
    ensures tag in ManagedGroups(groups, input.subscriptions)
  {
    GroupTagMembers(input.subscriptions);
  }

  lemma StaleAfter(st: State, a: Attempt, tag: string)
    requires Writes(st, a) && GroupFree(a.input) && tag != "" && tag != "proxy"
    ensures Stale(Step(st, a), tag) <==>
            (tag in GroupTags(a.input.subscriptions) && tag !in Step(st, a).groups)
            || (Stale(st, tag) && tag !in ManagedGroups(st.groups, a.input.subscriptions))
  {
    StepWrites(st, a);
    SyncedGroupIff(OutboundsOf(st), st.groups, a.input, tag);
    if tag in st.groups || tag in GroupTags(a.input.subscriptions) {
      ManagedCovers(st.groups, a.input, tag);
    }
  }

  lemma TagSetClean(input: Input)
    requires TagsOk(input)
    ensures "" !in TagSet(input) && "proxy" !in TagSet(input)
  {
    GroupTagMembers(input.subscriptions);
  }

  lemma TrackedStep(st: State, a: Attempt, generated: set<string>, lost: set<string>)
    requires Tracked(st, generated, lost) && Writes(st, a) && GroupFree(a.input)
    ensures Tracked(Step(st, a), generated + TagSet(a.input), LostAfter(lost, st, a))
  {
    TagSetClean(a.input);
    forall tag | tag in generated + TagSet(a.input)
      ensures Stale(Step(st, a), tag) <==> tag in LostAfter(lost, st, a)
    {
      StaleAfter(st, a, tag);
      if tag in GroupTags(a.input.subscriptions) {
        ManagedCovers(st.groups, a.input, tag);
      }
    }
  }

  lemma {:induction false} RunTracked(st: State, attempts: seq<Attempt>)
    requires GroupFreeRun(attempts)
    ensures Tracked(Run(st, attempts), Generated(st, attempts), Lost(st, attempts))
  {
    if attempts != [] {
      var init, last := attempts[..|attempts| - 1], attempts[|attempts| - 1];
      assert forall a | a in init :: a in attempts;
      assert last in attempts;
      RunTracked(st, init);
      if Writes(Run(st, init), last) {
        TrackedStep(Run(st, init), last, Generated(st, init), Lost(st, init));
      } else {
        StepKeeps(Run(st, init), last);
      }
    }
  }

  lemma TrackedStale(st: State, generated: set<string>, lost: set<string>)
    requires Tracked(st, generated, lost)
    ensures NoStaleGroup(OutboundsOf(st), generated, st.groups) <==> lost == {}
  {
    if lost != {} {
      var tag :| tag in lost;
      assert Stale(st, tag);
    } else {
      forall v | v in OutboundsOf(st) && IsGroupType(TypeOf(v)) && TagOf(v) in generated
        ensures TagOf(v) in st.groups
      {
        assert HasGroup(OutboundsOf(st), TagOf(v)) && !Stale(st, TagOf(v));
      }
    }
  }

  /** After any run, whatever fails: no group that a sync wrote is stale if and only if the store has lost
      track of none. */
  lemma {:induction false} NoStaleGroupIff(st: State, attempts: seq<Attempt>)
    requires GroupFreeRun(attempts)
    ensures var end := Run(st, attempts);
            NoStaleGroup(OutboundsOf(end), Generated(st, attempts), end.groups) <==> Lost(st, attempts) == {}
  {
    RunTracked(st, attempts);
    TrackedStale(Run(st, attempts), Generated(st, attempts), Lost(st, attempts));
  }

  lemma {:induction false} NothingLost(st: State, attempts: seq<Attempt>)
    requires NoDoubleFault(attempts)
    ensures Lost(st, attempts) == {}
  {
    if attempts != [] {
      var init, last := attempts[..|attempts| - 1], attempts[|attempts| - 1];
      assert forall a | a in init :: a in attempts;
      assert last in attempts;
      NothingLost(st, init);
      if Writes(Run(st, init), last) {
        StepWrites(Run(st, init), last);
      }
    }
  }

  /** In particular after any run without a double fault no group of a subscription that was renamed, removed
      or emptied before the last successful sync is left. */
  lemma {:induction false} RunLeavesNoStaleGroup(st: State, attempts: seq<Attempt>)
    requires GroupFreeRun(attempts) && NoDoubleFault(attempts)
    ensures NoStaleGroup(OutboundsOf(Run(st, attempts)), Generated(st, attempts), Run(st, attempts).groups)
  {
    NoStaleGroupIff(st, attempts);
    NothingLost(st, attempts);
  }

  lemma OneWrite(st: State, a: Attempt)
    requires Writes(st, a)
    ensures Run(st, [a]) == Step(st, a)
    ensures Lost(st, [a]) == LostAfter({}, st, a) && Generated(st, [a]) == TagSet(a.input)
  {
    assert [a][..0] == [];
    assert Lost(st, []) == {} && Generated(st, []) == {};
  }

  lemma TwoWrites(st: State, a: Attempt, b: Attempt)
    requires Writes(st, a) && Writes(Step(st, a), b)
    ensures Lost(st, [a, b]) == LostAfter(LostAfter({}, st, a), Step(st, a), b)
    ensures Generated(st, [a, b]) == TagSet(a.input) + TagSet(b.input)
  {
    assert [a, b][..1] == [a];
    OneWrite(st, a);
  }

  lemma LostAfterPair(st: State, a: Attempt, later: Attempt)
    requires DoubleFault(a) && ReachesCommit(st, a) && Succeeds(Step(st, a), later) && "" !in TagSet(a.input)
    ensures LostAfter(LostAfter({}, st, a), Step(st, a), later) == {} <==>
            TagSet(a.input) <= ManagedGroups(st.groups, later.input.subscriptions)
  {
    var managed := ManagedGroups(st.groups, later.input.subscriptions);
    StepWrites(st, a);
    StepWrites(Step(st, a), later);
    var first := LostAfter({}, st, a);
    assert first == set tag | tag in TagSet(a.input) && tag !in st.groups;
    assert LostAfter(first, Step(st, a), later) == first - managed;
    forall tag | tag in TagSet(a.input)
      ensures tag in managed <==> tag !in first - managed
    {}
  }

  /** The caller's side of it: after a double fault a successful sync leaves a stale group if and only if some
      group that was written then is neither in the store nor named after a subscription by now. */
  lemma {:induction false} DoubleFaultStaleIff(st: State, a: Attempt, later: Attempt)
    requires DoubleFault(a) && ReachesCommit(st, a) && Succeeds(Step(st, a), later)
    requires GroupFree(a.input) && GroupFree(later.input)
    ensures var end := Run(st, [a, later]);
            NoStaleGroup(OutboundsOf(end), TagSet(a.input) + TagSet(later.input), end.groups) <==>
            TagSet(a.input) <= ManagedGroups(st.groups, later.input.subscriptions)
  {
    TagSetClean(a.input);
    LostAfterPair(st, a, later);
    TwoWrites(st, a, later);
    NoStaleGroupIff(st, [a, later]);
  }

  /** A double fault does leave a stale group: the file has the groups of a subscription that the store
      does not know of, and a later successful sync without the subscription keeps them. */
  lemma {:induction false} DoubleFaultLeavesStaleGroup(st: State, a: Attempt, later: Attempt, v: Val)
    requires st.config.Decoded? && DoubleFault(a) && ReachesCommit(st, a) && TagsOk(a.input)
    requires Succeeds(Step(st, a), later) && TagsOk(later.input)
    requires v in GroupEntries(OutboundsOf(st), a.input.subscriptions, a.input.defaults) && TagOf(v) != ""
    requires TagOf(v) !in ManagedGroups(st.groups, later.input.subscriptions)
    ensures v in OutboundsOf(Run(st, [a, later])) && IsGroupType(TypeOf(v))
            && TagOf(v) !in Run(st, [a, later]).groups
  {
    var middle := Step(st, a);
    TwoAttempts(st, a, later);
    StepWrites(st, a);
    StepWrites(middle, later);
    StaleStays(OutboundsOf(st), st.groups, a.input, later.input, v);
  }

  lemma StaleStays(existing: seq<Val>, previous: seq<string>, input: Input, later: Input, v: Val)
    requires TagsOk(input) && TagsOk(later)
    requires v in GroupEntries(existing, input.subscriptions, input.defaults) && TagOf(v) != ""
    requires TagOf(v) !in ManagedGroups(previous, later.subscriptions)
    ensures v in SyncedOutbounds(SyncedOutbounds(existing, previous, input), previous, later)
    ensures IsGroupType(TypeOf(v)) && TagOf(v) !in GroupTags(later.subscriptions)
  {
    GeneratedIsSynced(existing, previous, input, v);
    UnmanagedGroupStays(SyncedOutbounds(existing, previous, input), previous, later, v);
  }

  lemma TwoAttempts(st: State, a: Attempt, b: Attempt)
    ensures Run(st, [a, b]) == Step(Step(st, a), b)
  {
    assert [a, b][..1] == [a] && [a][..0] == [];
    assert Run(st, [a]) == Step(st, a);
  }

  lemma GeneratedIsSynced(existing: seq<Val>, previous: seq<string>, input: Input, v: Val)
    requires TagsOk(input) && v in GroupEntries(existing, input.subscriptions, input.defaults)
    ensures v in SyncedOutbounds(existing, previous, input)
    ensures v.Map? && IsGroupType(TypeOf(v)) && TagOf(v) != "proxy"
  {
    SyncedShape(existing, previous, input);
    GroupsShape(existing, input);
  }

  lemma PreservedIsSynced(existing: seq<Val>, previous: seq<string>, input: Input, v: Val)
    requires TagsOk(input) && v in Preserved(existing, ManagedGroups(previous, input.subscriptions))
    ensures v in SyncedOutbounds(existing, previous, input)
  {
    SyncedShape(existing, previous, input);
  }

  lemma UnmanagedGroupStays(existing: seq<Val>, previous: seq<string>, input: Input, v: Val)
    requires TagsOk(input) && v in existing && v.Map? && IsGroupType(TypeOf(v)) && TagOf(v) != "proxy"
    requires TagOf(v) !in ManagedGroups(previous, input.subscriptions)
    ensures v in SyncedOutbounds(existing, previous, input)
    ensures TagOf(v) != "" ==> TagOf(v) !in GroupTags(input.subscriptions)
  {
    KeptMembers(existing, ManagedGroups(previous, input.subscriptions));
    PreservedIsSynced(existing, previous, input, v);
    if TagOf(v) != "" && TagOf(v) in GroupTags(input.subscriptions) {
      ManagedCovers(previous, input, TagOf(v));
    }
  }

  // ---- Conservation ----

  ghost predicate NamesWithin(attempts: seq<Attempt>, names: set<string>) {
    forall a, s | a in attempts && s in a.input.subscriptions && s.name != "" :: s.name in names
  }

  lemma SyncConserves(existing: seq<Val>, previous: seq<string>, input: Input, names: set<string>)
    requires CleanInput(input) && ManagedGroups(previous, input.subscriptions) <= names
    ensures Kept(SyncedOutbounds(existing, previous, input), names) == Kept(existing, names)
  {
    SyncKeeps(existing, previous, input, names);
    BuiltReplaced(existing, input, names);
  }

  /** What of a synced list is no group under one of the names and of no replaced type: the same as before,
      and the managed outbounds of other types. */
  lemma SyncKeeps(existing: seq<Val>, previous: seq<string>, input: Input, names: set<string>)
    requires TagsOk(input) && ManagedGroups(previous, input.subscriptions) <= names
    ensures Kept(SyncedOutbounds(existing, previous, input), names) ==
            Kept(existing, names) + Kept(AllBuilt(existing, Managed(input)), names)
  {
    var groups := ManagedGroups(previous, input.subscriptions);
    var members := SelectorMembers(existing, previous, input);
    SyncedShape(existing, previous, input);
    GeneratedWithin(previous, input, names);
    KeptOfGroups(existing, input, names);
    SelectorFacts(members, names, "");
    KeptOfPreservedMore(existing, groups, names);
    KeptOfParts(Preserved(existing, groups), AllBuilt(existing, Managed(input)),
                GroupEntries(existing, input.subscriptions, input.defaults), Selector(members), names);
  }

  lemma GeneratedWithin(previous: seq<string>, input: Input, names: set<string>)
    requires ManagedGroups(previous, input.subscriptions) <= names
    ensures forall tag | tag in GroupTags(input.subscriptions) && tag != "" :: tag in names
  {
    GroupTagMembers(input.subscriptions);
  }

  lemma KeptOfPreservedMore(existing: seq<Val>, groups: set<string>, names: set<string>)
    requires groups <= names
    ensures Kept(Preserved(existing, groups), names) == Kept(existing, names)
  {
    KeptNone([DIRECT], names);
    KeptConcat([DIRECT], Kept(existing, groups), names);
    KeptTwice(existing, groups, names);
  }

  lemma {:induction false} KeptTwice(a: seq<Val>, groups: set<string>, more: set<string>)
    requires groups <= more
    ensures Kept(Kept(a, groups), more) == Kept(a, more)
  {
    if a != [] {
      KeptTwice(a[1..], groups, more);
      if !Replaced(a[0], groups) {
        assert Kept(a, groups) == [a[0]] + Kept(a[1..], groups);
        assert ([a[0]] + Kept(a[1..], groups))[1..] == Kept(a[1..], groups);
      } else {
        assert Kept(a, groups) == Kept(a[1..], groups);
        assert Replaced(a[0], more);
      }
    }
  }

  /** The groups that a run manages stay within the names, whatever fails. */
  lemma StepGroupsWithin(st: State, a: Attempt, names: set<string>)
    requires forall tag | tag in st.groups && tag != "" :: tag in names
    requires forall s | s in a.input.subscriptions && s.name != "" :: s.name in names
    ensures ManagedGroups(st.groups, a.input.subscriptions) <= names
    ensures forall tag | tag in Step(st, a).groups && tag != "" :: tag in names
  {
    GroupTagMembers(a.input.subscriptions);
  }

  /** Conservation: whatever the user has that no sync manages (any outbound of another type, any group
      never named after a subscription or "proxy") keeps its content and its order over the whole run,
      whatever fails. */
  lemma {:induction false} RunConserves(st: State, attempts: seq<Attempt>, names: set<string>)
    requires CleanRun(attempts) && NamesWithin(attempts, names)
    requires forall tag | tag in st.groups && tag != "" :: tag in names
    ensures Kept(OutboundsOf(Run(st, attempts)), names) == Kept(OutboundsOf(st), names)
    ensures forall tag | tag in Run(st, attempts).groups && tag != "" :: tag in names
  {
    if attempts != [] {
      var init, last := attempts[..|attempts| - 1], attempts[|attempts| - 1];
      assert forall a | a in init :: a in attempts;
      RunConserves(st, init, names);
      assert last in attempts;
      var before := Run(st, init);
      StepGroupsWithin(before, last, names);
      if Step(before, last) != before {
        StepOutbounds(before, last);
        SyncConserves(OutboundsOf(before), before.groups, last.input, names);
      }
    }
  }

  /** What is certainly the user's own: groups, and outbounds under a tag that no managed outbound has. */
  predicate Own(v: Val, managedTags: set<string>) {
    IsGroupType(TypeOf(v)) || TagOf(v) !in managedTags
  }

  function Owned(a: seq<Val>, managedTags: set<string>): seq<Val> {
    if a == [] then [] else OwnedOne(a[0], managedTags) + Owned(a[1..], managedTags)
  }

  function OwnedOne(v: Val, managedTags: set<string>): seq<Val> {
    if Own(v, managedTags) then [v] else []
  }

  lemma {:induction false} OwnedConcat(a: seq<Val>, b: seq<Val>, managedTags: set<string>)
    ensures Owned(a + b, managedTags) == Owned(a, managedTags) + Owned(b, managedTags)
  {
    if a == [] {
      assert a + b == b;
    } else {
      OwnedConcat(a[1..], b, managedTags);
      OwnedStep(a, b, managedTags);
    }
  }

  lemma OwnedStep(a: seq<Val>, b: seq<Val>, managedTags: set<string>)
    requires a != []
    ensures Owned(a + b, managedTags) == OwnedOne(a[0], managedTags) + Owned(a[1..] + b, managedTags)
  {
    assert (a + b)[1..] == a[1..] + b;
  }

  lemma {:induction false} OwnedNone(a: seq<Val>, managedTags: set<string>)
    requires forall v | v in a :: !Own(v, managedTags)
    ensures Owned(a, managedTags) == []
  {
    if a != [] {
      OwnedNone(a[1..], managedTags);
    }
  }

  ghost predicate TagsWithin(attempts: seq<Attempt>, managedTags: set<string>) {
    forall a, o | a in attempts && o in Managed(a.input) :: o.tag in managedTags
  }

  lemma BuiltIsNotOwn(existing: seq<Val>, input: Input, names: set<string>, managedTags: set<string>)
    requires GroupFree(input) && forall o | o in Managed(input) :: o.tag in managedTags
    ensures Owned(Kept(AllBuilt(existing, Managed(input)), names), managedTags) == []
  {
    var built := AllBuilt(existing, Managed(input));
    BuiltMembers(existing, input);
    KeptMembers(built, names);
    forall v | v in Kept(built, names)
      ensures !Own(v, managedTags)
    {
      var i :| 0 <= i < |Managed(input)| && built[i] == v;
      assert Managed(input)[i] in Managed(input);
    }
    OwnedNone(Kept(built, names), managedTags);
  }

  lemma SyncConservesOwn(existing: seq<Val>, previous: seq<string>, input: Input, names: set<string>,
                         managedTags: set<string>)
    requires GroupFree(input) && ManagedGroups(previous, input.subscriptions) <= names
    requires forall o | o in Managed(input) :: o.tag in managedTags
    ensures Owned(Kept(SyncedOutbounds(existing, previous, input), names), managedTags) ==
            Owned(Kept(existing, names), managedTags)
  {
    SyncKeeps(existing, previous, input, names);
    OwnedConcat(Kept(existing, names), Kept(AllBuilt(existing, Managed(input)), names), managedTags);
    BuiltIsNotOwn(existing, input, names, managedTags);
  }

  /** Conservation with managed outbounds of any type: the user's groups (never named after a subscription
      or "proxy") and the user's outbounds (of no replaced type, under no tag of a managed one) keep
      content and order over every run, whatever fails. */
  lemma {:induction false} RunConservesOwn(st: State, attempts: seq<Attempt>, names: set<string>,
                                           managedTags: set<string>)
    requires GroupFreeRun(attempts) && NamesWithin(attempts, names) && TagsWithin(attempts, managedTags)
    requires forall tag | tag in st.groups && tag != "" :: tag in names
    ensures Owned(Kept(OutboundsOf(Run(st, attempts)), names), managedTags) ==
            Owned(Kept(OutboundsOf(st), names), managedTags)
    ensures forall tag | tag in Run(st, attempts).groups && tag != "" :: tag in names
  {
    if attempts != [] {
      var init, last := attempts[..|attempts| - 1], attempts[|attempts| - 1];
      assert forall a | a in init :: a in attempts;
      RunConservesOwn(st, init, names, managedTags);
      assert last in attempts;
      var before := Run(st, init);
      StepGroupsWithin(before, last, names);
      if Step(before, last) != before {
        StepOutbounds(before, last);
        SyncConservesOwn(OutboundsOf(before), before.groups, last.input, names, managedTags);
      }
    }
  }

  function GroupsOnly(a: seq<Val>): seq<Val> {
    if a == [] then [] else (if IsGroupType(TypeOf(a[0])) then [a[0]] else []) + GroupsOnly(a[1..])
  }

  lemma {:induction false} GroupsAreOwn(a: seq<Val>, managedTags: set<string>)
    ensures GroupsOnly(Owned(a, managedTags)) == GroupsOnly(a)
  {
    if a != [] {
      GroupsAreOwn(a[1..], managedTags);
      if Own(a[0], managedTags) {
        assert Owned(a, managedTags)[1..] == Owned(a[1..], managedTags);
      } else {
        assert Owned(a, managedTags) == Owned(a[1..], managedTags);
      }
    }
  }

  /** In particular user groups keep content and order over every run, with "ssh" and "tor" nodes too. */
  lemma {:induction false} RunConservesGroups(st: State, attempts: seq<Attempt>, names: set<string>)
    requires GroupFreeRun(attempts) && NamesWithin(attempts, names)
    requires forall tag | tag in st.groups && tag != "" :: tag in names
    ensures GroupsOnly(Kept(OutboundsOf(Run(st, attempts)), names)) == GroupsOnly(Kept(OutboundsOf(st), names))
  {
    var managedTags := set a, o | a in attempts && o in Managed(a.input) :: o.tag;
    assert TagsWithin(attempts, managedTags);
    RunConservesOwn(st, attempts, names, managedTags);
    GroupsAreOwn(Kept(OutboundsOf(Run(st, attempts)), names), managedTags);
    GroupsAreOwn(Kept(OutboundsOf(st), names), managedTags);
  }

  // ---- Members of generated groups ----

  ghost predicate HasMember(v: Val, tag: string) {
    v.Map? && "outbounds" in v.fields && v.fields["outbounds"].List? && Str(tag) in v.fields["outbounds"].items
  }

  lemma {:induction false} ProxyTagMembers(outbounds: seq<Outbound>)
    ensures forall tag :: tag in ProxyTags(outbounds) <==>
      tag != "" && exists o :: o in outbounds && o.tag == tag && IsProxyLike(o.kind)
  {
    if outbounds != [] {
      ProxyTagMembers(outbounds[1..]);
    }
  }

  lemma {:induction false} CollectedMembers(outbounds: seq<Val>, excluded: set<string>)
    ensures forall tag | tag in Collected(outbounds, excluded) :: exists v :: v in outbounds && TagOf(v) == tag
  {
    if outbounds != [] {
      CollectedMembers(outbounds[1..], excluded);
      forall tag | tag in Collected(outbounds, excluded)
        ensures exists v :: v in outbounds && TagOf(v) == tag
      {
        if tag in Collected(outbounds[1..], excluded) {
          var v :| v in outbounds[1..] && TagOf(v) == tag;
          assert v in outbounds;
        } else {
          assert outbounds[0] in outbounds;
        }
      }
    }
  }

  lemma {:induction false} SubscriptionMember(subscriptions: seq<Subscription>, s: Subscription, o: Outbound)
    requires s in subscriptions && o in s.outbounds
    ensures o in SubscriptionOutbounds(subscriptions)
  {
    if subscriptions[0] != s {
      SubscriptionMember(subscriptions[1..], s, o);
    }
  }

  lemma ManagedTagPresent(existing: seq<Val>, previous: seq<string>, input: Input, o: Outbound)
    requires TagsOk(input) && o in Managed(input)
    ensures exists w :: w in SyncedOutbounds(existing, previous, input) && TagOf(w) == o.tag
  {
    SyncedShape(existing, previous, input);
    BuiltMembers(existing, input);
    var i :| 0 <= i < |Managed(input)| && Managed(input)[i] == o;
    var w := AllBuilt(existing, Managed(input))[i];
    assert w in AllBuilt(existing, Managed(input));
    assert w in SyncedOutbounds(existing, previous, input) && TagOf(w) == o.tag;
  }

  /** Every member of a generated group is the tag of an outbound of the list. */
  lemma {:induction false} GroupMembersPresent(existing: seq<Val>, previous: seq<string>, input: Input,
                                               v: Val, tag: string)
    requires TagsOk(input)
    requires v in GroupEntries(existing, input.subscriptions, input.defaults) && HasMember(v, tag)
    ensures exists w :: w in SyncedOutbounds(existing, previous, input) && TagOf(w) == tag
  {
    GroupEntryMembers(existing, input.subscriptions, input.defaults);
    var s :| s in input.subscriptions && ProxyTags(s.outbounds) != []
             && v == Map(GroupEntry(LastByTag(existing, s.name), s, input.defaults));
    ProxyTagMembers(s.outbounds);
    assert v.fields["outbounds"] == TagList(ProxyTags(s.outbounds));
    assert tag in ProxyTags(s.outbounds);
    var o :| o in s.outbounds && o.tag == tag && IsProxyLike(o.kind);
    SubscriptionMember(input.subscriptions, s, o);
    ManagedTagPresent(existing, previous, input, o);
  }

  lemma GroupTagPresent(existing: seq<Val>, subscriptions: seq<Subscription>, defaults: URLTest, tag: string)
    requires tag in GroupTags(subscriptions)
    ensures exists w :: w in GroupEntries(existing, subscriptions, defaults) && TagOf(w) == tag
  {
    var s := subscriptions[0];
    GroupFacts(LastByTag(existing, s.name), s, defaults);
    if tag in GroupTags(subscriptions[1..]) {
      GroupTagPresent(existing, subscriptions[1..], defaults, tag);
      var w :| w in GroupEntries(existing, subscriptions[1..], defaults) && TagOf(w) == tag;
      assert w in GroupEntries(existing, subscriptions, defaults);
    } else {
      var w := Map(GroupEntry(LastByTag(existing, s.name), s, defaults));
      assert w in GroupEntries(existing, subscriptions, defaults);
    }
  }

  /** Every member of the proxy selector is the tag of an outbound of the list. */
  lemma {:induction false} SelectorMembersPresent(existing: seq<Val>, previous: seq<string>, input: Input,
                                                  v: Val, tag: string)
    requires TagsOk(input)
    requires v in Selector(SelectorMembers(existing, previous, input)) && HasMember(v, tag)
    ensures exists w :: w in SyncedOutbounds(existing, previous, input) && TagOf(w) == tag
  {
    var base := Base(existing, previous, input);
    var excluded := MemberTags(input.subscriptions);
    assert tag in SelectorMembers(existing, previous, input);
    SyncedShape(existing, previous, input);
    if tag in GroupTags(input.subscriptions) {
      GroupTagPresent(existing, input.subscriptions, input.defaults, tag);
      var w :| w in GroupEntries(existing, input.subscriptions, input.defaults) && TagOf(w) == tag;
      assert w in SyncedOutbounds(existing, previous, input);
    } else {
      CollectedMembers(base, excluded);
      var w :| w in base && TagOf(w) == tag;
      assert w in SyncedOutbounds(existing, previous, input);
    }
  }
}
