/** The handlers and apply functions of a shard server, updating its fields in place (src/shardkv/common.go). */
module ShardServer {
  import opened Sets
  import opened Options
  import opened ShardGroup
  import opened ShardClients

  /** dcopy of a shard's contents, and likewise the loop that writes pulled pairs into a shard. */
  method CopyInto(kv: map<string, string>, data: map<string, string>) returns (r: map<string, string>)
    ensures r == kv + data
  {
    hide Beyond;
    r := kv;
    var rest := data.Keys;
    BeyondEnds(data);
    while |rest| > 0
      invariant rest <= data.Keys && r == kv + Beyond(data, rest)
      decreases |rest|
    {
      var key := Pick(rest);
      BeyondNext(data, rest, key);
      r := r[key := data[key]];
      rest := rest - {key};
    }
  }

  /** The loop that keeps the newer entry for every client. */
  method Merge(mine: Operations, theirs: Operations) returns (r: Operations)
    ensures r == MergeOps(mine, theirs)
  {
    hide Beyond, MergeOps;
    r := mine;
    var rest := theirs.Keys;
    BeyondEnds(theirs);
    MergeNothing(mine);
    while |rest| > 0
      invariant rest <= theirs.Keys && r == MergeOps(mine, Beyond(theirs, rest))
      decreases |rest|
    {
      var clientId := Pick(rest);
      BeyondNext(theirs, rest, clientId);
      MergeOne(mine, Beyond(theirs, rest), clientId, theirs[clientId]);
      if clientId !in r || r[clientId].maxApplied < theirs[clientId].maxApplied {
        r := r[clientId := theirs[clientId]];
      }
      rest := rest - {clientId};
    }
  }

  lemma MergeNothing(mine: Operations)
    ensures MergeOps(mine, map[]) == mine
  {
  }

  lemma MergeOne(mine: Operations, theirs: Operations, c: int, info: OperationInfo)
    requires c !in theirs
    ensures var r := MergeOps(mine, theirs);
            MergeOps(mine, theirs[c := info]) == if c !in r
              || r[c].maxApplied < info.maxApplied then r[c := info] else r
  {
    var r, r' := MergeOps(mine, theirs), MergeOps(mine, theirs[c := info]);
    assert c in r <==> c in mine;
    if c !in r || r[c].maxApplied < info.maxApplied {
      assert r' == r[c := info];
    } else {
      assert r' == r;
    }
  }

  function Under(groups: map<int, seq<int>>, gid: int): seq<int> {
    if gid in groups then groups[gid] else []
  }

  /** The shards in a status that group `from` had last, except those still to be looked at. */
  ghost predicate Found(g: Group, status: Status, rest: set<int>, from: int, ids: seq<int>)
    requires g.Sized(|g.shards|)
  {
    Distinct(ids) && forall s :: s in ids <==> InStatus(g, status, from, s) && s !in rest
  }

  ghost predicate AllFound(g: Group, status: Status, rest: set<int>, groups: map<int, seq<int>>)
    requires g.Sized(|g.shards|)
  {
    forall from {:trigger Under(groups, from)} :: Found(g, status, rest, from, Under(groups, from))
  }

  lemma FoundNext(g: Group, status: Status, rest: set<int>, from: int, ids: seq<int>, i: int)
    requires g.Sized(|g.shards|) && 0 <= i < |g.shards| && i in rest && Found(g, status, rest, from, ids)
    ensures Found(g, status, rest - {i}, from, if InStatus(g, status, from, i) then ids + [i] else ids)
  {
    assert i !in ids;
  }

  lemma AllFoundNext(g: Group, status: Status, rest: set<int>, groups: map<int, seq<int>>, i: int)
    requires g.Sized(|g.shards|) && 0 <= i < |g.shards| && i in rest && AllFound(g, status, rest, groups)
    ensures var from := g.last.shards[i];
            AllFound(g, status, rest - {i}, if g.shards[i].status == status
                     && from != 0 then groups[from := Under(groups, from) + [i]] else groups)
  {
    hide Found;
    var from := g.last.shards[i];
    var groups' := if g.shards[i].status == status
      && from != 0 then groups[from := Under(groups, from) + [i]] else groups;
    forall h ensures Found(g, status, rest - {i}, h, Under(groups', h)) {
      assert Found(g, status, rest, h, Under(groups, h));
      FoundNext(g, status, rest, h, Under(groups, h), i);
    }
  }

  lemma NoneFound(g: Group, status: Status, all: set<int>)
    requires g.Sized(|g.shards|) && forall s :: 0 <= s < |g.shards| ==> s in all
    ensures AllFound(g, status, all, map[])
  {
  }

  lemma FoundAll(g: Group, status: Status, groups: map<int, seq<int>>)
    requires g.Sized(|g.shards|) && AllFound(g, status, {}, groups)
    ensures forall from {:trigger Under(groups, from)} :: Lists(Under(groups, from), s => InStatus(g, status, from, s))
  {
    forall from ensures Lists(Under(groups, from), s => InStatus(g, status, from, s)) {
      assert Found(g, status, {}, from, Under(groups, from));
    }
  }

  /** What a snapshot holds, in the order it is encoded. */
  datatype Saved = Saved(stateMachines: map<int, Shard>, ops: Operations, current: Config, last: Config) {
    ghost predicate Sized(nShards: nat) {
      |current.shards| == nShards && |last.shards| == nShards && forall s :: s in stateMachines <==> 0 <= s < nShards
    }

    ghost function Group(gid: int, nShards: nat): Group
      requires Sized(nShards)
    {
      ShardGroup.Group(gid, last, current, seq(nShards, s requires 0 <= s < nShards => stateMachines[s]), ops)
    }
  }

  datatype PullReply = ErrWrongLeader | ErrNotReady | Data(data: ShardData)

  class ShardKV {
    const gid: int
    const nShards: nat
    var lastConfig: Config
    var currentConfig: Config
    var stateMachines: map<int, Shard>
    var lastOperations: Operations

    ghost predicate Valid()
      reads this
    {
      && nShards > 0 && |lastConfig.shards| == nShards && |currentConfig.shards| == nShards
      && forall s :: s in stateMachines <==> 0 <= s < nShards
    }

    /** The server as a state machine value. */
    ghost function View(): (g: Group)
      requires Valid()
      reads this
      ensures g.Sized(nShards)
    {
      Group(gid, lastConfig, currentConfig,
            seq(nShards, s requires 0 <= s < nShards && Valid() reads this => stateMachines[s]), lastOperations)
    }

    /** StartServer: from the snapshot on disk, if there is one. */
    constructor (gid: int, nShards: nat, snapshot: Option<Saved>)
      requires nShards > 0 && (snapshot.Some? ==> snapshot.value.Sized(nShards))
      ensures Valid() && this.gid == gid && this.nShards == nShards
      ensures var none := Config(0, seq(nShards, _ => 0));
              View() == if snapshot.Some? then snapshot.value.Group(gid, nShards)
                        else Group(gid, none, none, seq(nShards, _ => NewShard()), map[])
    {
      this.gid, this.nShards := gid, nShards;
      lastConfig, currentConfig := Config(0, seq(nShards, _ => 0)), Config(0, seq(nShards, _ => 0));
      lastOperations := map[];
      stateMachines := map[];
      new;
      RestoreSnapshot(snapshot);
    }

    method RestoreSnapshot(snapshot: Option<Saved>)
      requires nShards > 0 && |lastConfig.shards| == nShards && |currentConfig.shards| == nShards
      requires if snapshot.Some? then snapshot.value.Sized(nShards)
                                      else forall s :: s in stateMachines ==> 0 <= s < nShards
      modifies this
      ensures Valid()
      ensures snapshot.Some? ==> View() == snapshot.value.Group(gid, nShards)
      ensures snapshot.None? ==> lastConfig == old(lastConfig) && currentConfig == old(currentConfig)
                                 && lastOperations == old(lastOperations)
      ensures snapshot.None? ==> forall s :: 0 <= s < nShards ==>
                                             stateMachines[s] == if s in old(stateMachines)
                                               then old(stateMachines)[s] else NewShard()
    {
      if snapshot.None? {
        InitStateMachines();
        return;
      }
      stateMachines, lastOperations := snapshot.value.stateMachines, snapshot.value.ops;
      currentConfig, lastConfig := snapshot.value.current, snapshot.value.last;
    }

    /** What a restart from the snapshot has is what the server had. */
    method TakeSnapshot() returns (saved: Saved)
      requires Valid()
      ensures saved.Sized(nShards) && saved.Group(gid, nShards) == View()
    {
      saved := Saved(stateMachines, lastOperations, currentConfig, lastConfig);
    }

    method InitStateMachines()
      requires nShards > 0 && |lastConfig.shards| == nShards && |currentConfig.shards| == nShards
      requires forall s :: s in stateMachines ==> 0 <= s < nShards
      modifies this`stateMachines
      ensures Valid() && forall s :: 0 <= s < nShards ==>
                                     stateMachines[s] == if s in old(stateMachines)
                                       then old(stateMachines)[s] else NewShard()
    {
      for i := 0 to nShards
        invariant forall s :: s in stateMachines <==> 0 <= s < i || s in old(stateMachines)
        invariant forall s <- stateMachines :: stateMachines[s] == if s in old(stateMachines)
                                               then old(stateMachines)[s] else NewShard()
      {
        if i !in stateMachines {
          stateMachines := stateMachines[i := NewShard()];
        }
      }
    }

    predicate CanServe(s: nat)
      requires Valid() && s < nShards
      reads this
      ensures CanServe(s) <==> CanServer(View(), s)
    {
      currentConfig.shards[s] == gid && (stateMachines[s].status == SERVING || stateMachines[s].status == GC)
    }

    /** Command, up to where it turns to the log. */
    method Command(args: CommandArgs) returns (reply: Option<CommandReply>)
      requires Valid()
      ensures reply == EarlyReply(View(), args)
    {
      if args.op != Get && IsDuplicate(lastOperations, args.clientId, args.commandId) {
        return Some(lastOperations[args.clientId].lastReply);
      }
      if !CanServe(Key2Shard(args.key, nShards)) {
        return Some(CommandReply(ErrWrongGroup, ""));
      }
      return None;
    }

    /** applyLogToStateMachines. */
    method ApplyLog(operation: CommandArgs, s: nat) returns (reply: CommandReply)
      requires Valid() && s < nShards
      modifies this`stateMachines
      ensures Valid()
      ensures var shard := old(stateMachines)[s];
              stateMachines == old(stateMachines)[s := shard.(kv := Execute(shard.kv, operation))]
      ensures reply == ReplyTo(old(stateMachines)[s].kv, operation)
    {
      var shard := stateMachines[s];
      match operation.op
      case Put =>
        stateMachines := stateMachines[s := shard.(kv := shard.kv[operation.key := operation.value])];
        reply := CommandReply(OK, "");
      case Append =>
        stateMachines := stateMachines[s :=
                                       shard.(kv :=
                                              shard.kv[operation.key := Value(shard.kv, operation.key) +
                                                       operation.value])];
        reply := CommandReply(OK, "");
      case Get =>
        reply := if operation.key in shard.kv then CommandReply(OK, shard.kv[operation.key])
                                                   else CommandReply(ErrNoKey, "");
        assert shard.(kv := shard.kv) == shard;
    }

    method ApplyOperation(operation: CommandArgs) returns (reply: CommandReply)
      requires Valid()
      modifies this`stateMachines, this`lastOperations
      ensures Valid() && (View(), reply) == ShardGroup.ApplyOperation(old(View()), operation)
    {
      ghost var before := View();
      var shardId := Key2Shard(operation.key, nShards);
      if CanServe(shardId) {
        if operation.op != Get && IsDuplicate(lastOperations, operation.clientId, operation.commandId) {
          return lastOperations[operation.clientId].lastReply;
        }
        reply := ApplyLog(operation, shardId);
        if operation.op != Get {
          lastOperations := lastOperations[operation.clientId := OperationInfo(operation.commandId, reply)];
        }
        ghost var written := Execute(before.shards[shardId].kv, operation);
        assert View().shards == before.shards[shardId := before.shards[shardId].(kv := written)];
        return reply;
      }
      return CommandReply(ErrWrongGroup, "");
    }

    method UpdateShardStatus(nextConfig: Config)
      requires Valid() && |nextConfig.shards| == nShards
      modifies this`stateMachines
      ensures Valid() && forall s :: 0 <= s < nShards ==>
                var shard := old(stateMachines)[s];
                var status := NextStatus(gid, currentConfig.shards[s], nextConfig.shards[s], shard.status);
                stateMachines[s] == shard.(status := status)
    {
      for i := 0 to nShards
        invariant Valid()
        invariant forall s :: 0 <= s < nShards ==>
                    var shard := old(stateMachines)[s];
                    var status := NextStatus(gid, currentConfig.shards[s], nextConfig.shards[s], shard.status);
                    stateMachines[s] == if s >= i then shard else shard.(status := status)
      {
        if currentConfig.shards[i] != gid && nextConfig.shards[i] == gid {
          var from := currentConfig.shards[i];
          if from != 0 {
            stateMachines := stateMachines[i := stateMachines[i].(status := PULLING)];
          }
        }
        if currentConfig.shards[i] == gid && nextConfig.shards[i] != gid {
          var to := nextConfig.shards[i];
          if to != 0 {
            stateMachines := stateMachines[i := stateMachines[i].(status := BEPULLING)];
          }
        }
      }
    }

    method ApplyConfiguration(nextConfig: Config) returns (reply: CommandReply)
      requires Valid() && |nextConfig.shards| == nShards
      modifies this`stateMachines, this`lastConfig, this`currentConfig
      ensures Valid() && View() == ShardGroup.ApplyConfiguration(old(View()), nextConfig)
      ensures reply.err == OK <==> nextConfig.num == old(currentConfig.num) + 1
    {
      if nextConfig.num == currentConfig.num + 1 {
        UpdateShardStatus(nextConfig);
        lastConfig := currentConfig;
        currentConfig := nextConfig;
        return CommandReply(OK, "");
      }
      return CommandReply(ErrOutDated, "");
    }

    /** `order` is the order in which the map of pulled shards happens to be walked. */
    method ApplyInsertShards(shardsInfo: ShardData, order: seq<int>) returns (reply: CommandReply)
      requires Valid() && Within(order, nShards) && Given(order, shardsInfo.shards)
      modifies this`stateMachines, this`lastOperations
      ensures Valid() && View() == ApplyInsert(old(View()), shardsInfo, order)
      ensures reply.err == OK <==> shardsInfo.configNum == old(currentConfig.num)
    {
      if shardsInfo.configNum == currentConfig.num {
        ghost var before := View();
        var i := 0;
        while i < |order|
          invariant 0 <= i <= |order| && Valid() && lastOperations == old(lastOperations)
          invariant InsertLoop(View().shards, shardsInfo.shards, order[i..]) ==
                      InsertLoop(before.shards, shardsInfo.shards, order)
        {
          var shardId := order[i];
          var shard := stateMachines[shardId];
          ghost var shards := View().shards;
          assert order[i..][0] == shardId && order[i..][1..] == order[i + 1..];
          if shard.status == PULLING {
            var kv := CopyInto(shard.kv, shardsInfo.shards[shardId]);
            stateMachines := stateMachines[shardId := Shard(kv, GC)];
            assert View().shards == shards[shardId := Shard(kv, GC)];
          } else {
            assert InsertLoop(shards, shardsInfo.shards, order[i..]) == shards;
            break;
          }
          i := i + 1;
        }
        assert order[|order|..] == [];
        ghost var inserted := View();
        assert inserted == before.(shards := InsertLoop(before.shards, shardsInfo.shards, order));
        lastOperations := Merge(lastOperations, shardsInfo.ops);
        assert View().shards == inserted.shards;
        assert View() == inserted.(ops := lastOperations);
        return CommandReply(OK, "");
      }
      return CommandReply(ErrOutDated, "");
    }

    method ApplyDeleteShards(configNum: nat, shardIds: seq<int>) returns (reply: CommandReply)
      requires Valid() && Within(shardIds, nShards)
      modifies this`stateMachines
      ensures Valid() && View() == ApplyDelete(old(View()), configNum, shardIds) && reply.err == OK
    {
      if configNum == currentConfig.num {
        ghost var before := View();
        var i := 0;
        while i < |shardIds|
          invariant 0 <= i <= |shardIds| && Valid()
          invariant DeleteLoop(View().shards, shardIds[i..]) == DeleteLoop(before.shards, shardIds)
        {
          var shardId := shardIds[i];
          var shard := stateMachines[shardId];
          ghost var shards := View().shards;
          assert shardIds[i..][0] == shardId && shardIds[i..][1..] == shardIds[i + 1..];
          if shard.status == GC {
            stateMachines := stateMachines[shardId := shard.(status := SERVING)];
            assert View().shards == shards[shardId := shard.(status := SERVING)];
          } else if shard.status == BEPULLING {
            stateMachines := stateMachines[shardId := NewShard()];
            assert View().shards == shards[shardId := NewShard()];
          } else {
            break;
          }
          i := i + 1;
        }
      }
      return CommandReply(OK, "");
    }

    /** The test of configurationAction, over the shards in any order. */
    method CanGetNextConfig() returns (can: bool)
      requires Valid()
      ensures can <==> AllServing(View())
    {
      can := true;
      var rest := stateMachines.Keys;
      while |rest| > 0
        invariant rest <= stateMachines.Keys && can
                  && forall s <- stateMachines :: s !in rest ==> stateMachines[s].status == SERVING
        decreases |rest|
      {
        var s := Pick(rest);
        if stateMachines[s].status != SERVING {
          assert View().shards[s].status != SERVING;
          return false;
        }
        rest := rest - {s};
      }
    }

    /** For each group, the shards in a status that the last configuration gave to it. */
    method GetShardIdsByStatus(status: Status) returns (gid2shardIds: map<int, seq<int>>)
      requires Valid()
      ensures var g := View(); forall from {:trigger Under(gid2shardIds, from)} ::
                               Lists(Under(gid2shardIds, from), s => InStatus(g, status, from, s))
    {
      hide AllFound, Lists, Distinct;
      ghost var g := View();
      gid2shardIds := map[];
      var rest := stateMachines.Keys;
      NoneFound(g, status, rest);
      while |rest| > 0
        invariant rest <= stateMachines.Keys && AllFound(g, status, rest, gid2shardIds)
        decreases |rest|
      {
        var i := Pick(rest);
        var from := lastConfig.shards[i];
        AllFoundNext(g, status, rest, gid2shardIds, i);
        if stateMachines[i].status == status && from != 0 {
          ghost var before := gid2shardIds;
          if from !in gid2shardIds {
            gid2shardIds := gid2shardIds[from := []];
          }
          gid2shardIds := gid2shardIds[from := gid2shardIds[from] + [i]];
          assert gid2shardIds == before[from := Under(before, from) + [i]];
        }
        rest := rest - {i};
      }
      assert rest == {};
      FoundAll(g, status, gid2shardIds);
    }

    method GetShardsData(isLeader: bool, configNum: nat, shardIds: seq<int>) returns (reply: PullReply)
      requires Valid() && Within(shardIds, nShards)
      ensures reply == if !isLeader then ErrWrongLeader
                       else if currentConfig.num < configNum then ErrNotReady
                       else Data(Answer(View(), configNum, shardIds))
    {
      if !isLeader {
        return ErrWrongLeader;
      }
      if currentConfig.num < configNum {
        return ErrNotReady;
      }
      var shards: map<int, map<string, string>> := map[];
      for i := 0 to |shardIds|
        invariant shards == map s | s in shardIds[..i] :: View().shards[s].kv
      {
        var kv := CopyInto(map[], stateMachines[shardIds[i]].kv);
        assert map[] + stateMachines[shardIds[i]].kv == stateMachines[shardIds[i]].kv;
        shards := shards[shardIds[i] := kv];
      }
      assert shardIds[..|shardIds|] == shardIds;
      var ops: Operations := map[];
      var rest := lastOperations.Keys;
      while |rest| > 0
        invariant rest <= lastOperations.Keys && ops == Beyond(lastOperations, rest)
        decreases |rest|
      {
        var clientId := Pick(rest);
        BeyondNext(lastOperations, rest, clientId);
        ops := ops[clientId := lastOperations[clientId]];
        rest := rest - {clientId};
      }
      BeyondEnds(lastOperations);
      return Data(ShardData(configNum, shards, ops));
    }
  }
}
