/** Every run of the shard controller: Join, Leave and Move in any order, with any arguments. */
module CtrlerRuns {
  import opened Sets
  import opened CtrlerBalance
  import opened CtrlerSpec
  import opened CtrlerTheorems

  datatype Command = Join(groups: map<int, seq<string>>) | Leave(gids: seq<int>) | Move(shard: nat, gid: int)

  ghost predicate IsMove(c: Config, num: nat, shard: nat, gid: int, c': Config) {
    shard < |c.shards| && c' == Config(num, c.shards[shard := gid], c.groups)
  }

  ghost predicate Answers(c: Config, num: nat, command: Command, c': Config) {
    match command
    case Join(groups) => IsJoin(c, num, groups, c')
    case Leave(gids) => IsLeave(c, num, gids, c')
    case Move(shard, gid) => IsMove(c, num, shard, gid, c')
  }

  /** The configurations after a run of commands, the initial one first. */
  ghost predicate Run(configs: seq<Config>, commands: seq<Command>) {
    && |configs| == |commands| + 1
    && configs[0].num == 0 && configs[0].groups == map[] && |configs[0].shards| > 0
    && (forall s :: 0 <= s < |configs[0].shards| ==> configs[0].shards[s] == 0)
    && forall i :: 0 <= i < |commands| ==> Answers(configs[i], i + 1, commands[i], configs[i + 1])
  }

  /** Whatever the commands, configuration `i` has number `i`, and all have as many shards. */
  lemma {:induction false} Numbered(configs: seq<Config>, commands: seq<Command>, i: nat)
    requires Run(configs, commands) && i < |configs|
    ensures configs[i].num == i && |configs[i].shards| == |configs[0].shards| > 0
  {
    if i > 0 {
      Numbered(configs, commands, i - 1);
      assert Answers(configs[i - 1], i - 1 + 1, commands[i - 1], configs[i - 1 + 1]);
      hide Answers;
      NextShape(configs[i - 1], i, commands[i - 1], configs[i]);
    }
  }

  lemma NextShape(c: Config, num: nat, command: Command, c': Config)
    requires Answers(c, num, command, c')
    ensures c'.num == num && |c'.shards| == |c.shards|
  {
    hide Grouped, Rebalance, Spells, DropGroups, Adopt, Sane;
  }

  /** A Join names no group 0 and leaves at least one group; a Move names a live group. */
  ghost predicate Sound(c: Config, command: Command) {
    match command
    case Join(groups) => 0 !in groups && (groups + c.groups).Keys != {}
    case Leave(_) => true
    case Move(_, gid) => gid in c.groups
  }

  ghost predicate AllSound(configs: seq<Config>, commands: seq<Command>) {
    forall i :: 0 <= i < |commands| && i < |configs| ==> Sound(configs[i], commands[i])
  }

  /** Over every run of sound commands every shard belongs to a live group, or to 0 when there is none. */
  lemma {:induction false} AlwaysLive(configs: seq<Config>, commands: seq<Command>, i: nat)
    requires Run(configs, commands) && AllSound(configs, commands) && i < |configs|
    ensures configs[i].num == i && Live(configs[i])
  {
    if i > 0 {
      AlwaysLive(configs, commands, i - 1);
      assert Answers(configs[i - 1], i - 1 + 1, commands[i - 1], configs[i - 1 + 1]);
      assert Sound(configs[i - 1], commands[i - 1]);
      match commands[i - 1]
      case Join(groups) => JoinLive(configs[i - 1], i, groups, configs[i]);
      case Leave(gids) => LeaveLive(configs[i - 1], i, gids, configs[i]);
      case Move(shard, gid) =>
    }
  }

  /** Without Moves, loads are also within one. */
  lemma {:induction false} AlwaysOk(configs: seq<Config>, commands: seq<Command>, i: nat)
    requires Run(configs, commands) && AllSound(configs, commands) && i < |configs|
    requires forall j :: 0 <= j < |commands| ==> !commands[j].Move?
    ensures configs[i].num == i && ConfigOk(configs[i])
  {
    if i == 0 {
      assert Balanced(configs[0].shards, {});
    } else {
      AlwaysOk(configs, commands, i - 1);
      assert Answers(configs[i - 1], i - 1 + 1, commands[i - 1], configs[i - 1 + 1]);
      assert Sound(configs[i - 1], commands[i - 1]) && !commands[i - 1].Move?;
      hide ConfigOk;
      match commands[i - 1]
      case Join(groups) => JoinKeeps(configs[i - 1], i, groups, configs[i]);
      case Leave(gids) => LeaveKeeps(configs[i - 1], i, gids, configs[i]);
    }
  }

  /** The next configuration is determined: the order in which maps are walked does not show. */
  lemma NextUnique(c: Config, num: nat, command: Command, d: Config, d': Config)
    requires Answers(c, num, command, d) && Answers(c, num, command, d')
    ensures d == d'
  {
    match command
    case Join(groups) =>
      SpellsUnique(Rebalance(Grouped(c.(groups := groups + c.groups)), |c.shards|), d.shards, d'.shards);
    case Leave(gids) =>
      if d.groups.Keys == {} {
        assert d.shards == d'.shards;
      } else {
        var (rest, orphans) := DropGroups(Grouped(c), gids);
        SpellsUnique(Adopt(rest, orphans, |c.shards|), d.shards, d'.shards);
      }
    case Move(_, _) =>
  }

  // ---- Shards nobody has

  /** A command takes a shard from its group and gives it to nobody: the last group leaves, or a Move names 0. */
  ghost predicate TakesAway(c: Config, command: Command, s: nat) {
    match command
    case Join(_) => false
    case Leave(gids) => c.groups.Keys - Elems(gids) == {}
    case Move(shard, gid) => shard == s && gid == 0
  }

  /** A command gives a shard that nobody has to somebody. */
  ghost predicate GivesOut(c: Config, command: Command, s: nat) {
    match command
    case Join(_) => true
    case Leave(gids) => c.groups.Keys - Elems(gids) != {} && 0 in gids
    case Move(shard, gid) => shard == s && gid != 0
  }

  /** Nothing else does either, whatever configuration the command finds. */
  lemma TakenOrGiven(c: Config, num: nat, command: Command, c': Config, s: nat)
    requires Answers(c, num, command, c') && s < |c.shards|
    ensures |c'.shards| == |c.shards|
    ensures c.shards[s] != 0 ==> (c'.shards[s] == 0 <==> TakesAway(c, command, s))
    ensures c.shards[s] == 0 ==> (c'.shards[s] != 0 <==> GivesOut(c, command, s))
  {
    hide IsJoin, IsLeave;
    NextShape(c, num, command, c');
    match command
    case Join(groups) => JoinGivesAll(c, num, groups, c');
    case Leave(gids) =>
      LeaveMoves(c, num, gids, c', s);
      LeaveGroups(c, num, gids, c');
    case Move(_, _) =>
  }

  lemma LeaveGroups(c: Config, num: nat, gids: seq<int>, c': Config)
    requires IsLeave(c, num, gids, c')
    ensures c'.groups.Keys == c.groups.Keys - Elems(gids)
  {
  }
}
