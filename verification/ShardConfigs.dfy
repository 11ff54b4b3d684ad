/** The configurations a shard controller hands out, as the sharded store takes them. */
module ShardConfigs {
  import opened Sets
  import opened ShardGroup
  import opened ShardSystem
  import opened ShardExact
  import C = CtrlerSpec
  import T = CtrlerTheorems
  import opened R = CtrlerRuns

  /** All groups that ever joined or were given a shard. */
  ghost function Groups(configs: seq<C.Config>): set<int> {
    if configs == [] then {}
    else
      var last := configs[|configs| - 1];
      Groups(configs[..|configs| - 1]) + (last.groups.Keys + T.Owners(last.shards)) - {0}
  }

  lemma {:induction false} GroupsHave(configs: seq<C.Config>, i: nat)
    requires i < |configs|
    ensures 0 !in Groups(configs) && forall g :: g in configs[i].groups || g in configs[i].shards ==>
                                                 g == 0 || g in Groups(configs)
  {
    var front, last := configs[..|configs| - 1], configs[|configs| - 1];
    if i < |front| {
      GroupsHave(front, i);
      assert front[i] == configs[i];
    } else {
      forall g | g in last.shards ensures g in T.Owners(last.shards) {
        var s :| 0 <= s < |last.shards| && last.shards[s] == g;
        assert s in Below(|last.shards|);
      }
    }
  }

  /** After the last configuration nothing changes. */
  ghost function At(configs: seq<C.Config>, k: nat): C.Config
    requires |configs| > 0
  {
    configs[if k < |configs| then k else |configs| - 1]
  }

  ghost function EnvOf(configs: seq<C.Config>, request: (int, int) -> CommandArgs): Env
    requires |configs| > 0
  {
    Env(|configs[0].shards|, Groups(configs), (k: nat) => At(configs, k).shards, request)
  }

  ghost predicate OwnRequests(request: (int, int) -> CommandArgs) {
    forall c, m {:trigger request(c, m)} :: request(c, m).clientId == c && request(c, m).commandId == m
  }

  // ---- Every run gives well-formed configurations

  lemma AssignedIs(configs: seq<C.Config>, commands: seq<Command>, request: (int, int) -> CommandArgs, k: nat, s: int)
    requires |configs| > 0 && R.Run(configs, commands)
    ensures var e := EnvOf(configs, request);
            && |At(configs, k).shards| == |e.owner(k)| == e.nShards > 0
            && Assigned(e, k, s) == (if 0 <= s < e.nShards then At(configs, k).shards[s] else 0)
            && (Assigned(e, k, s) == 0 || Assigned(e, k, s) in e.gids)
  {
    var i := if k < |configs| then k else |configs| - 1;
    assert 0 <= i < |configs|;
    hide R.Run, Groups;
    Numbered(configs, commands, i);
    GroupsHave(configs, i);
  }

  lemma {:induction false} HolderIsGroup(configs: seq<C.Config>, commands: seq<Command>,
                                         request: (int, int) -> CommandArgs, k: nat, s: int)
    requires |configs| > 0 && R.Run(configs, commands)
    ensures var e := EnvOf(configs, request); Holder(e, k, s) == 0 || Holder(e, k, s) in e.gids
  {
    hide R.Run, Assigned, Groups, At;
    AssignedIs(configs, commands, request, k, s);
    if k > 0 { HolderIsGroup(configs, commands, request, k - 1, s); }
  }

  /** Whatever commands the controller gets, and from whoever. */
  lemma RunWellFormed(configs: seq<C.Config>, commands: seq<Command>, request: (int, int) -> CommandArgs)
    requires R.Run(configs, commands) && OwnRequests(request)
    ensures WellFormed(EnvOf(configs, request))
  {
    var e := EnvOf(configs, request);
    GroupsHave(configs, 0);
    Numbered(configs, commands, 0);
    forall s ensures Holder(e, 0, s) == 0 { AssignedIs(configs, commands, request, 0, s); }
    hide R.Run, Holder, Groups;
    forall k: nat ensures |e.owner(k)| == e.nShards { AssignedIs(configs, commands, request, k, 0); }
    forall k: nat, s | Holder(e, k, s) != 0 ensures Holder(e, k, s) in e.gids {
      HolderIsGroup(configs, commands, request, k, s);
    }
  }

  // ---- Which runs are safe

  /** Command `i` takes the shard from a group, and the next one that gives it out is command `j`. */
  ghost predicate TakenThenGiven(configs: seq<C.Config>, commands: seq<Command>, i: nat, j: nat, s: nat) {
    && i < j < |commands| == |configs| - 1 && s < |configs[i].shards| && configs[i].shards[s] != 0
    && TakesAway(configs[i], commands[i], s)
    && (forall k :: i < k < j ==> !GivesOut(configs[k], commands[k], s))
    && GivesOut(configs[j], commands[j], s)
  }

  /** A shard taken from a group and given out again goes back to that group. */
  ghost predicate GivesBack(configs: seq<C.Config>, commands: seq<Command>) {
    forall i: nat, j: nat, s: nat :: TakenThenGiven(configs, commands, i, j, s) ==>
      s < |configs[j + 1].shards| && configs[j + 1].shards[s] == configs[i].shards[s]
  }

  lemma Step(configs: seq<C.Config>, commands: seq<Command>, i: nat, s: nat)
    requires R.Run(configs, commands) && i < |commands| && s < |configs[0].shards|
    ensures |configs[i].shards| == |configs[i + 1].shards| == |configs[0].shards|
    ensures configs[i].shards[s] != 0 ==> (configs[i + 1].shards[s] == 0 <==> TakesAway(configs[i], commands[i], s))
    ensures configs[i].shards[s] == 0 ==> (configs[i + 1].shards[s] != 0 <==> GivesOut(configs[i], commands[i], s))
  {
    assert R.Answers(configs[i], i + 1, commands[i], configs[i + 1]);
    hide R.Answers, R.Run, TakesAway, GivesOut;
    Numbered(configs, commands, i);
    Numbered(configs, commands, i + 1);
    TakenOrGiven(configs[i], i + 1, commands[i], configs[i + 1], s);
  }

  /** In between nobody has it, and its holder is the group it was taken from. */
  lemma {:induction false} InBetween(configs: seq<C.Config>, commands: seq<Command>,
                                     request: (int, int) -> CommandArgs, i: nat, k: nat, s: nat)
    requires |configs| > 0 && R.Run(configs, commands) && i < k < |configs| && s < |configs[0].shards|
    requires |configs[i].shards| == |configs[0].shards| && configs[i].shards[s] != 0
    requires TakesAway(configs[i], commands[i], s)
    requires forall l :: i < l < k ==> !GivesOut(configs[l], commands[l], s)
    ensures var e := EnvOf(configs, request); Assigned(e, k, s) == 0 && Holder(e, k, s) == configs[i].shards[s]
  {
    hide R.Run, TakesAway, GivesOut, Groups, Assigned;
    AssignedIs(configs, commands, request, k, s);
    AssignedIs(configs, commands, request, k - 1, s);
    RunSize(configs, commands);
    Step(configs, commands, k - 1, s);
    if k - 1 > i { InBetween(configs, commands, request, i, k - 1, s); }
  }

  /** So what happens when the shard is given out decides whether it returns. */
  lemma ReturnsWhenGiven(configs: seq<C.Config>, commands: seq<Command>, request: (int, int) -> CommandArgs,
                         i: nat, j: nat, s: nat)
    requires |configs| > 0 && R.Run(configs, commands) && TakenThenGiven(configs, commands, i, j, s)
    ensures |configs[j + 1].shards| == |configs[i].shards| == |configs[0].shards|
    ensures Returns(EnvOf(configs, request), j, s) <==> configs[j + 1].shards[s] == configs[i].shards[s]
  {
    hide R.Run, TakesAway, GivesOut, Groups, Assigned, Holder;
    Numbered(configs, commands, i);
    Step(configs, commands, j, s);
    InBetween(configs, commands, request, i, j, s);
    AssignedIs(configs, commands, request, j, s);
    AssignedIs(configs, commands, request, j + 1, s);
  }

  /** Where a shard that nobody has was taken from. */
  lemma {:induction false} TakenFrom(configs: seq<C.Config>, commands: seq<Command>, request: (int, int) -> CommandArgs,
                                     k: nat, s: nat) returns (i: nat)
    requires |configs| > 0 && R.Run(configs, commands) && k < |configs| && s < |configs[0].shards|
    requires var e := EnvOf(configs, request); Assigned(e, k, s) == 0 && Holder(e, k, s) != 0
    ensures i < k && |configs[i].shards| == |configs[0].shards| && configs[i].shards[s] != 0
    ensures configs[i].shards[s] == Holder(EnvOf(configs, request), k, s)
    ensures TakesAway(configs[i], commands[i], s) && forall l :: i < l < k ==> !GivesOut(configs[l], commands[l], s)
  {
    hide R.Run, TakesAway, GivesOut, Groups, Assigned;
    var e := EnvOf(configs, request);
    AssignedIs(configs, commands, request, k, s);
    AssignedIs(configs, commands, request, k - 1, s);
    RunSize(configs, commands);
    Step(configs, commands, k - 1, s);
    if Assigned(e, k - 1, s) != 0 {
      i := k - 1;
    } else {
      i := TakenFrom(configs, commands, request, k - 1, s);
    }
  }

  lemma GivenBackReturns(configs: seq<C.Config>, commands: seq<Command>, request: (int, int) -> CommandArgs, k: nat,
                         s: int)
    requires |configs| > 0 && R.Run(configs, commands) && GivesBack(configs, commands)
    ensures Returns(EnvOf(configs, request), k, s)
  {
    hide R.Run, TakesAway, GivesOut, Groups, Assigned, Holder;
    var e := EnvOf(configs, request);
    AssignedIs(configs, commands, request, k, s);
    AssignedIs(configs, commands, request, k + 1, s);
    if Assigned(e, k, s) == 0 && Holder(e, k, s) != 0 && Assigned(e, k + 1, s) != 0 {
      assert At(configs, k) != At(configs, k + 1);
      RunSize(configs, commands);
      Step(configs, commands, k, s);
      var i := TakenFrom(configs, commands, request, k, s);
      assert TakenThenGiven(configs, commands, i, k, s);
    }
  }

  lemma RunSize(configs: seq<C.Config>, commands: seq<Command>)
    requires R.Run(configs, commands)
    ensures |configs| == |commands| + 1
  {
  }

  /**
   The sharded store is safe with a controller exactly when every shard that the controller takes
   from a group and gives out again goes back to that group.
   */
  lemma ControllerSafeExactly(configs: seq<C.Config>, commands: seq<Command>, request: (int, int) -> CommandArgs)
    requires R.Run(configs, commands) && OwnRequests(request) && Writable(EnvOf(configs, request))
    ensures WellFormed(EnvOf(configs, request)) && (Safe(EnvOf(configs, request)) <==> GivesBack(configs, commands))
  {
    RunWellFormed(configs, commands, request);
    RunSize(configs, commands);
    var e := EnvOf(configs, request);
    hide R.Run, WellFormed, Safe, Writable, TakenThenGiven, Returns;
    SafeExactly(e);
    if GivesBack(configs, commands) {
      forall k: nat, s ensures Returns(e, k, s) { GivenBackReturns(configs, commands, request, k, s); }
    } else {
      var i: nat, j: nat, s: nat :| TakenThenGiven(configs, commands, i, j, s)
        && !(s < |configs[j + 1].shards| && configs[j + 1].shards[s] == configs[i].shards[s]);
      GivenElsewhere(configs, commands, request, i, j, s);
    }
  }

  lemma GivenElsewhere(configs: seq<C.Config>, commands: seq<Command>, request: (int, int) -> CommandArgs,
                       i: nat, j: nat, s: nat)
    requires |configs| > 0 && R.Run(configs, commands) && TakenThenGiven(configs, commands, i, j, s)
    requires !(s < |configs[j + 1].shards| && configs[j + 1].shards[s] == configs[i].shards[s])
    ensures !Returns(EnvOf(configs, request), j, s)
  {
    ReturnsWhenGiven(configs, commands, request, i, j, s);
  }

  /** No Leave takes away the last group while shards have owners, and no Move names 0. */
  ghost predicate KeepsOwners(configs: seq<C.Config>, commands: seq<Command>) {
    forall i, s: nat :: 0 <= i < |commands| && i < |configs| && s < |configs[i].shards| && configs[i].shards[s] != 0 ==>
      !TakesAway(configs[i], commands[i], s)
  }

  /** A controller that takes no shard away hands out configurations the sharded store is safe with. */
  lemma KeepingOwnersIsSafe(configs: seq<C.Config>, commands: seq<Command>, request: (int, int) -> CommandArgs)
    requires R.Run(configs, commands) && OwnRequests(request) && KeepsOwners(configs, commands)
    ensures EnvOk(EnvOf(configs, request))
  {
    RunWellFormed(configs, commands, request);
    RunSize(configs, commands);
    hide R.Run, WellFormed, Returns, TakesAway, GivesOut;
    assert GivesBack(configs, commands);
    forall k: nat, s ensures Returns(EnvOf(configs, request), k, s) {
      GivenBackReturns(configs, commands, request, k, s);
    }
  }

  /**
   In particular one whose Joins and Moves are sound and whose last group never leaves; then every
   shard is with a live group.
   */
  lemma KeepingGroupsIsSafe(configs: seq<C.Config>, commands: seq<Command>, request: (int, int) -> CommandArgs)
    requires R.Run(configs, commands) && OwnRequests(request) && AllSound(configs, commands)
    requires forall i :: 0 <= i < |commands| && i < |configs| && commands[i].Leave? && configs[i].groups.Keys != {} ==>
               configs[i].groups.Keys - Elems(commands[i].gids) != {}
    ensures EnvOk(EnvOf(configs, request)) && forall i :: 0 <= i < |configs| ==> T.Live(configs[i])
  {
    RunSize(configs, commands);
    hide R.Run;
    forall i | 0 <= i < |configs| ensures T.Live(configs[i]) { AlwaysLive(configs, commands, i); }
    forall i, s: nat | 0 <= i < |commands| && s < |configs[i].shards| && configs[i].shards[s] != 0
      ensures !TakesAway(configs[i], commands[i], s)
    {
      assert T.Live(configs[i]) && Sound(configs[i], commands[i]);
    }
    KeepingOwnersIsSafe(configs, commands, request);
  }

  // ---- The two ways to break it

  /**
   When the last group leaves and others join, a shard is safe exactly when it is given to the very
   group that had it.
   */
  lemma LeaveAllThenJoin(configs: seq<C.Config>, commands: seq<Command>, request: (int, int) -> CommandArgs, i: nat,
                         s: nat)
    requires |configs| > 0 && R.Run(configs, commands) && i + 1 < |commands|
    requires commands[i].Leave? && commands[i + 1].Join? && configs[i].groups.Keys - Elems(commands[i].gids) == {}
    requires s < |configs[i].shards| && configs[i].shards[s] != 0
    ensures |configs[i + 2].shards| == |configs[i].shards|
    ensures Returns(EnvOf(configs, request), i + 1, s) <==> configs[i + 2].shards[s] == configs[i].shards[s]
  {
    RunSize(configs, commands);
    hide R.Run, Returns;
    ReturnsWhenGiven(configs, commands, request, i, i + 1, s);
  }

  /** When a Move gives a shard to nobody and another one gives it on, it must name the group that had it. */
  lemma MoveAwayAndOn(configs: seq<C.Config>, commands: seq<Command>, request: (int, int) -> CommandArgs, i: nat,
                      s: nat, g: int)
    requires |configs| > 0 && R.Run(configs, commands) && i + 1 < |commands|
    requires commands[i] == Move(s, 0) && commands[i + 1] == Move(s, g) && g != 0
    requires s < |configs[i].shards| && configs[i].shards[s] != 0
    ensures Returns(EnvOf(configs, request), i + 1, s) <==> g == configs[i].shards[s]
  {
    RunSize(configs, commands);
    assert R.Answers(configs[i + 1], i + 1 + 1, commands[i + 1], configs[i + 1 + 1]);
    hide R.Run, Returns;
    ReturnsWhenGiven(configs, commands, request, i, i + 1, s);
  }
}
