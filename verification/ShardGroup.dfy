/**
 One replica group of the sharded store, as the state machine its log drives
 (src/shardkv/common.go, src/shardkv/shard.go).
 */
module ShardGroup {
  import opened Sets

  datatype Status = SERVING | PULLING | BEPULLING | GC

  datatype Shard = Shard(kv: map<string, string>, status: Status)

  function NewShard(): Shard { Shard(map[], SERVING) }

  /** The assignment of shards to groups; 0 is no group. */
  datatype Config = Config(num: nat, shards: seq<int>)

  datatype OpKind = Get | Put | Append

  datatype CommandArgs = CommandArgs(key: string, value: string, op: OpKind, clientId: int, commandId: int)

  datatype Err = OK | ErrNoKey | ErrWrongGroup | ErrOutDated

  datatype CommandReply = CommandReply(err: Err, value: string)

  datatype OperationInfo = OperationInfo(maxApplied: int, lastReply: CommandReply)

  type Operations = map<int, OperationInfo>

  datatype Group = Group(gid: int, last: Config, current: Config, shards: seq<Shard>, ops: Operations) {
    predicate Sized(nShards: nat) {
      |shards| == nShards && |current.shards| == nShards && |last.shards| == nShards
    }
  }

  /** What a group sends for the shards another group pulls. */
  datatype ShardData = ShardData(configNum: nat, shards: map<int, map<string, string>>, ops: Operations)

  function Key2Shard(key: string, nShards: nat): (s: nat)
    requires nShards > 0
    ensures s < nShards
  {
    (if |key| > 0 then key[0] as int else 0) % nShards
  }

  // ---- Client operations

  predicate CanServer(g: Group, s: nat)
    requires s < |g.shards| && s < |g.current.shards|
  {
    g.current.shards[s] == g.gid && (g.shards[s].status == SERVING || g.shards[s].status == GC)
  }

  predicate IsDuplicate(ops: Operations, clientId: int, commandId: int) {
    clientId in ops && ops[clientId].maxApplied >= commandId
  }

  function Value(kv: map<string, string>, key: string): string {
    if key in kv then kv[key] else ""
  }

  /** Put and Append on a map; a Get leaves it alone. */
  function Execute(kv: map<string, string>, args: CommandArgs): map<string, string> {
    match args.op
    case Get => kv
    case Put => kv[args.key := args.value]
    case Append => kv[args.key := Value(kv, args.key) + args.value]
  }

  function ReplyTo(kv: map<string, string>, args: CommandArgs): CommandReply {
    if args.op != Get then CommandReply(OK, "")
    else if args.key in kv then CommandReply(OK, kv[args.key])
    else CommandReply(ErrNoKey, "")
  }

  /** The group serves the key and, for a write, has not applied it before. */
  predicate Takes(g: Group, args: CommandArgs)
    requires |g.shards| > 0 && g.Sized(|g.shards|)
  {
    && CanServer(g, Key2Shard(args.key, |g.shards|))
    && (args.op == Get || !IsDuplicate(g.ops, args.clientId, args.commandId))
  }

  function ApplyOperation(g: Group, args: CommandArgs): (Group, CommandReply)
    requires |g.shards| > 0 && g.Sized(|g.shards|)
  {
    var s := Key2Shard(args.key, |g.shards|);
    if !CanServer(g, s) then (g, CommandReply(ErrWrongGroup, ""))
    else if args.op != Get && IsDuplicate(g.ops, args.clientId, args.commandId) then (g, g.ops[args.clientId].lastReply)
    else
      var shard := g.shards[s];
      var reply := ReplyTo(shard.kv, args);
      var g' := g.(shards := g.shards[s := shard.(kv := Execute(shard.kv, args))]);
      if args.op == Get then (g', reply)
      else (g'.(ops := g.ops[args.clientId := OperationInfo(args.commandId, reply)]), reply)
  }

  // ---- Configurations

  predicate AllServing(g: Group) {
    forall s :: 0 <= s < |g.shards| ==> g.shards[s].status == SERVING
  }

  /** Status of one shard after moving from one owner to the next. */
  function NextStatus(gid: int, from: int, to: int, status: Status): Status {
    if from != gid && to == gid && from != 0 then PULLING
    else if from == gid && to != gid && to != 0 then BEPULLING
    else status
  }

  function ApplyConfiguration(g: Group, next: Config): (g': Group)
    requires g.Sized(|g.shards|) && |next.shards| == |g.shards|
    ensures g'.Sized(|g.shards|)
  {
    if next.num != g.current.num + 1 then g
    else g.(last := g.current, current := next,
            shards := seq(|g.shards|, s requires 0 <= s < |g.shards| =>
              g.shards[s].(status := NextStatus(g.gid, g.current.shards[s], next.shards[s], g.shards[s].status))))
  }

  // ---- Moving shards

  /** The shards in `status` that came from, or go to, group `from` (getShardIdsByStatus). */
  predicate InStatus(g: Group, status: Status, from: int, s: int)
    requires g.Sized(|g.shards|)
  {
    0 <= s < |g.shards| && g.shards[s].status == status && g.last.shards[s] == from && from != 0
  }

  predicate Within(ids: seq<int>, n: nat) {
    forall i :: 0 <= i < |ids| ==> 0 <= ids[i] < n
  }

  predicate Given<T>(ids: seq<int>, data: map<int, T>) {
    forall i :: 0 <= i < |ids| ==> ids[i] in data
  }

  ghost predicate Lists(ids: seq<int>, which: int -> bool) {
    && Distinct(ids)
    && (forall s :: s in ids <==> which(s))
  }

  /** GetShardsData, once the group has reached the configuration asked for. */
  function Answer(g: Group, configNum: nat, ids: seq<int>): ShardData
    requires Within(ids, |g.shards|)
  {
    ShardData(configNum, map s | s in ids :: g.shards[s].kv, g.ops)
  }

  /** The insert loop over the pulled shards, in the order the map happens to be walked. */
  function InsertLoop(shards: seq<Shard>, data: map<int, map<string, string>>, order: seq<int>): (r: seq<Shard>)
    requires Within(order, |shards|) && Given(order, data)
    ensures |r| == |shards|
    decreases |order|
  {
    if order == [] || shards[order[0]].status != PULLING then shards
    else
      var s := order[0];
      InsertLoop(shards[s := Shard(shards[s].kv + data[s], GC)], data, order[1..])
  }

  /** The newer entry for every client. */
  function MergeOps(mine: Operations, theirs: Operations): Operations {
    map c | c in mine.Keys + theirs.Keys ::
      if c in theirs && (c !in mine || mine[c].maxApplied < theirs[c].maxApplied) then theirs[c] else mine[c]
  }

  function ApplyInsert(g: Group, data: ShardData, order: seq<int>): (g': Group)
    requires g.Sized(|g.shards|) && Within(order, |g.shards|) && Given(order, data.shards)
    ensures g'.Sized(|g.shards|)
  {
    if data.configNum != g.current.num then g
    else g.(shards := InsertLoop(g.shards, data.shards, order), ops := MergeOps(g.ops, data.ops))
  }

  function DeleteLoop(shards: seq<Shard>, ids: seq<int>): (r: seq<Shard>)
    requires Within(ids, |shards|)
    ensures |r| == |shards|
    decreases |ids|
  {
    if ids == [] then shards
    else
      var s := ids[0];
      if shards[s].status == GC then DeleteLoop(shards[s := shards[s].(status := SERVING)], ids[1..])
      else if shards[s].status == BEPULLING then DeleteLoop(shards[s := NewShard()], ids[1..])
      else shards
  }

  function ApplyDelete(g: Group, configNum: nat, ids: seq<int>): (g': Group)
    requires g.Sized(|g.shards|) && Within(ids, |g.shards|)
    ensures g'.Sized(|g.shards|)
  {
    if configNum != g.current.num then g else g.(shards := DeleteLoop(g.shards, ids))
  }

  // ---- What the loops do when the shards they are given share one status

  ghost predicate Share(shards: seq<Shard>, ids: seq<int>, status: Status)
    requires Within(ids, |shards|)
  {
    forall i :: 0 <= i < |ids| ==> shards[ids[i]].status == status
  }

  /** Whatever the order, all shards are inserted. */
  lemma {:induction false} InsertAll(shards: seq<Shard>, data: map<int, map<string, string>>, order: seq<int>)
    requires Within(order, |shards|) && Given(order, data) && Share(shards, order, PULLING)
    requires Distinct(order)
    ensures forall s :: 0 <= s < |shards| ==>
              InsertLoop(shards, data, order)[s] == if s in order then Shard(shards[s].kv + data[s], GC) else shards[s]
    decreases |order|
  {
    if order != [] {
      var x, rest := order[0], order[1..];
      var shards' := shards[x := Shard(shards[x].kv + data[x], GC)];
      assert forall s :: s in order <==> s == x || s in rest;
      assert x !in rest;
      InsertAll(shards', data, rest);
    }
  }

  /** Or none is. */
  lemma InsertNone(shards: seq<Shard>, data: map<int, map<string, string>>, order: seq<int>, status: Status)
    requires Within(order, |shards|) && Given(order, data) && Share(shards, order, status) && status != PULLING
    ensures InsertLoop(shards, data, order) == shards
  {
  }

  lemma {:induction false} DeleteAll(shards: seq<Shard>, ids: seq<int>, status: Status)
    requires Within(ids, |shards|) && Share(shards, ids, status) && (status == GC || status == BEPULLING)
    requires Distinct(ids)
    ensures forall s :: 0 <= s < |shards| ==>
              DeleteLoop(shards, ids)[s] ==
              if s !in ids then shards[s] else if status == GC then shards[s].(status := SERVING) else NewShard()
    decreases |ids|
  {
    if ids != [] {
      var x, rest := ids[0], ids[1..];
      var shards' := shards[x := if status == GC then shards[x].(status := SERVING) else NewShard()];
      assert forall s :: s in ids <==> s == x || s in rest;
      assert x !in rest;
      DeleteAll(shards', rest, status);
    }
  }

  lemma DeleteNone(shards: seq<Shard>, ids: seq<int>, status: Status)
    requires Within(ids, |shards|) && Share(shards, ids, status) && (status == SERVING || status == PULLING)
    ensures DeleteLoop(shards, ids) == shards
  {
  }

  // ---- Handing a shard over through group 0

  /** A shard that goes to nobody and then to somebody is not touched on the way, at any group. */
  lemma ThroughNobody(g: Group, c1: Config, c2: Config, s: nat)
    requires g.Sized(|g.shards|) && |c1.shards| == |g.shards| && |c2.shards| == |g.shards| && s < |g.shards|
             && g.gid != 0
    requires c1.num == g.current.num + 1 && c2.num == c1.num + 1 && c1.shards[s] == 0
    ensures var g' := ApplyConfiguration(ApplyConfiguration(g, c1), c2);
            && g'.shards[s] == g.shards[s]
            && (CanServer(g', s) <==> c2.shards[s] == g.gid
                                      && (g.shards[s].status == SERVING || g.shards[s].status == GC))
  {
    var g1 := ApplyConfiguration(g, c1);
    assert g1.shards[s].status == g.shards[s].status && g1.gid == g.gid;
  }

  /** So a group given a shard that nobody has serves, at once and without asking, the copy it had itself. */
  lemma HeirServes(h: Group, c: Config, s: nat)
    requires h.Sized(|h.shards|) && |c.shards| == |h.shards| && s < |h.shards| && h.gid != 0
    requires c.num == h.current.num + 1 && h.current.shards[s] == 0 && c.shards[s] == h.gid
    requires h.shards[s].status == SERVING
    ensures var h' := ApplyConfiguration(h, c);
            h'.shards[s] == h.shards[s] && CanServer(h', s) && h'.ops == h.ops && h'.gid == h.gid
  {
  }
}
