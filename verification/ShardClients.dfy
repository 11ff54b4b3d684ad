/** What clients may rely on: early answers, and that an acknowledged write was carried out (src/shardkv/server.go). */
module ShardClients {
  import opened Options
  import opened ShardGroup
  import opened ShardSystem
  import opened ShardSafety

  /** What Command answers before it turns to the log; nothing if it does turn to it. */
  function EarlyReply(g: Group, args: CommandArgs): Option<CommandReply>
    requires |g.shards| > 0 && g.Sized(|g.shards|)
  {
    if args.op != Get && IsDuplicate(g.ops, args.clientId, args.commandId) then Some(g.ops[args.clientId].lastReply)
    else if !CanServer(g, Key2Shard(args.key, |g.shards|)) then Some(CommandReply(ErrWrongGroup, ""))
    else None
  }

  /**
   A command that is not a repeated write is refused at once exactly if its shard is not given to the
   group or has not arrived, and then the log would refuse it too and change nothing; a repeated
   write gets the answer on record, and every other command goes to the log.
   */
  lemma RefusesExactly(g: Group, args: CommandArgs)
    requires |g.shards| > 0 && g.Sized(|g.shards|)
    ensures var s := (if args.key == "" then 0 else args.key[0] as int) % |g.shards|;
            var here := g.current.shards[s] == g.gid && g.shards[s].status != PULLING
              && g.shards[s].status != BEPULLING;
            var repeated := args.op != Get && args.clientId in g.ops
              && args.commandId <= g.ops[args.clientId].maxApplied;
            && (!repeated ==> (EarlyReply(g, args) == Some(CommandReply(ErrWrongGroup, "")) <==> !here))
            && (!here ==> ApplyOperation(g, args) == (g, CommandReply(ErrWrongGroup, "")))
            && (repeated ==> EarlyReply(g, args) == Some(g.ops[args.clientId].lastReply))
            && (EarlyReply(g, args) == None <==> !repeated && here)
            && (EarlyReply(g, args) == None <==> Takes(g, args))
  {
  }

  /**
   An early answer to a write that is not a refusal is the one every group that serves the key, then
   or at any other moment, gives through its log.
   */
  lemma EarlyAnswer(e: Env, ys: seq<System>, acts: seq<Action>, i: nat, g: int, j: nat, h: int, args: CommandArgs)
    requires EnvOk(e) && Run(e, ys, acts) && i < |ys| && j < |ys| && g in e.gids && h in e.gids && args.op != Get
    requires Shaped(e, ys[i]) && Shaped(e, ys[j]) && CanServer(ys[j].groups[h], Key2Shard(args.key, e.nShards))
    requires var early := EarlyReply(ys[i].groups[g], args); early.Some? && early.value.err != ErrWrongGroup
    ensures EarlyReply(ys[i].groups[g], args).value == ApplyOperation(ys[j].groups[h], args).1 ==
              ReplyTo(ys[j].store, args)
  {
    AlwaysTables(e, ys, acts, i);
    AnswersFromStore(e, ys, acts, j, h, args);
    hide Run, EnvOk, ApplyOperation;
    assert TableOk(ys[i].groups[g].ops, ys[i].done);
  }

  // ---- Acknowledged writes

  ghost predicate Write(e: Env, c: int, m: int) {
    e.request(c, m).op != Get
  }

  /** A group acknowledges the write, early or at step `i` through its log. */
  ghost predicate Acknowledged(e: Env, ys: seq<System>, acts: seq<Action>, i: nat, c: int, m: int) {
    Write(e, c, m) && exists g <- e.gids :: AckedBy(e, ys, acts, i, g, c, m)
  }

  ghost predicate AckedBy(e: Env, ys: seq<System>, acts: seq<Action>, i: nat, g: int, c: int, m: int) {
    && i < |ys| && e.nShards > 0 && g in ys[i].groups && ys[i].groups[g].Sized(e.nShards)
    && (|| IsDuplicate(ys[i].groups[g].ops, c, m)
        || (i < |acts| && acts[i] == CommitOperation(g, c, m)
            && CanServer(ys[i].groups[g], Key2Shard(e.request(c, m).key, e.nShards))))
  }

  /** All writes of the client that have been carried out are numbered `m` or less. */
  ghost predicate Latest(y: System, c: int, m: int) {
    forall k :: (c, k) in y.done ==> k <= m
  }

  /**
   A write that is not recognised is carried out; one that is recognised either was carried out or
   has been overtaken, and then it never will be at this group.
   */
  lemma AckedExactly(e: Env, ys: seq<System>, acts: seq<Action>, i: nat, g: int, c: int, m: int)
    requires WellFormed(e) && Run(e, ys, acts) && i < |acts| && acts[i] == CommitOperation(g, c, m) && Write(e, c, m)
    requires AckedBy(e, ys, acts, i, g, c, m) && CanServer(ys[i].groups[g], Key2Shard(e.request(c, m).key, e.nShards))
    ensures (c, m) in ys[i + 1].done <==> (c, m) in ys[i].done || !IsDuplicate(ys[i].groups[g].ops, c, m)
  {
    assert Next(e, ys[i], acts[i], ys[i + 1]);
    RequestIs(e, c, m);
    hide WellFormed, Run, ApplyOperation, Execute;
  }

  /** If it is the client's latest, it has been carried out. */
  lemma LatestIsDone(e: Env, ys: seq<System>, acts: seq<Action>, i: nat, g: int, c: int, m: int)
    requires WellFormed(e) && Run(e, ys, acts) && AckedBy(e, ys, acts, i, g, c, m) && g in e.gids && Write(e, c, m)
    requires Latest(ys[i], c, m)
    ensures if IsDuplicate(ys[i].groups[g].ops, c, m) then (c, m) in ys[i].done
            else i + 1 < |ys| && (c, m) in ys[i + 1].done
  {
    AlwaysTables(e, ys, acts, i);
    assert TableOk(ys[i].groups[g].ops, ys[i].done);
    if !IsDuplicate(ys[i].groups[g].ops, c, m) {
      AckedExactly(e, ys, acts, i, g, c, m);
    }
  }

  /** The client sends a write only when every earlier one it was ever answered has been answered. */
  ghost predicate OneAtATime(e: Env, ys: seq<System>, acts: seq<Action>, c: int) {
    forall i, m, k, j ::
      0 <= i < |acts| && Commits(e, acts[i], c, k) && m < k && 0 <= j < |ys| && Acknowledged(e, ys, acts, j, c, m) ==>
        AckedUpTo(e, ys, acts, i, c, m)
  }

  ghost predicate Commits(e: Env, a: Action, c: int, m: int) {
    a.CommitOperation? && a.clientId == c && a.commandId == m && Write(e, c, m)
  }

  ghost predicate AckedUpTo(e: Env, ys: seq<System>, acts: seq<Action>, i: nat, c: int, m: int) {
    exists j :: 0 <= j <= i && Acknowledged(e, ys, acts, j, c, m)
  }

  /** What has been carried out was committed at some step. */
  lemma {:induction false} DoneBy(e: Env, ys: seq<System>, acts: seq<Action>, i: nat, c: int, m: int) returns (j: nat)
    requires EnvOk(e) && Run(e, ys, acts) && i < |ys| && (c, m) in ys[i].done
    ensures j < i && j < |acts| && Commits(e, acts[j], c, m)
  {
    if (c, m) in ys[i - 1].done {
      j := DoneBy(e, ys, acts, i - 1, c, m);
    } else {
      StepOfStore(e, ys, acts, i - 1);
      j := i - 1;
      assert Next(e, ys[j], acts[j], ys[j + 1]);
    }
  }

  lemma {:induction false} FirstAck(e: Env, ys: seq<System>, acts: seq<Action>, i: nat, c: int, m: int) returns (j: nat)
    requires Acknowledged(e, ys, acts, i, c, m)
    ensures j <= i && Acknowledged(e, ys, acts, j, c, m)
            && forall k :: 0 <= k < j ==> !Acknowledged(e, ys, acts, k, c, m)
  {
    hide Acknowledged;
    if k: nat :| k < i && Acknowledged(e, ys, acts, k, c, m) {
      j := FirstAck(e, ys, acts, k, c, m);
    } else {
      j := i;
    }
  }

  /** Every acknowledged write of a client that sends one at a time has been carried out. */
  lemma AcknowledgedIsDone(e: Env, ys: seq<System>, acts: seq<Action>, i: nat, c: int, m: int)
    requires EnvOk(e) && Run(e, ys, acts) && i < |ys| && OneAtATime(e, ys, acts, c)
             && Acknowledged(e, ys, acts, i, c, m)
    ensures (c, m) in ys[if i < |acts| then i + 1 else i].done
  {
    RunSize(e, ys, acts);
    hide Run, EnvOk;
    var j := FirstAck(e, ys, acts, i, c, m);
    forall k | (c, k) in ys[j].done ensures k <= m {
      if k > m { NotOvertaken(e, ys, acts, j, c, m, k); }
    }
    var g :| g in e.gids && AckedBy(e, ys, acts, j, g, c, m);
    assert WellFormed(e) by { EnvIs(e); }
    LatestIsDone(e, ys, acts, j, g, c, m);
    var end := if i < |acts| then i + 1 else i;
    DoneGrows(e, ys, acts, j, end);
    if j + 1 < |ys| { DoneGrows(e, ys, acts, j + 1, end); }
  }

  lemma NotOvertaken(e: Env, ys: seq<System>, acts: seq<Action>, j: nat, c: int, m: int, k: int)
    requires EnvOk(e) && Run(e, ys, acts) && j < |ys| && OneAtATime(e, ys, acts, c)
             && Acknowledged(e, ys, acts, j, c, m)
    requires forall l :: 0 <= l < j ==> !Acknowledged(e, ys, acts, l, c, m)
    requires m < k
    ensures (c, k) !in ys[j].done
  {
    hide Run, EnvOk, Acknowledged;
    if (c, k) in ys[j].done {
      var l := DoneBy(e, ys, acts, j, c, k);
    }
  }

  lemma RunSize(e: Env, ys: seq<System>, acts: seq<Action>)
    requires Run(e, ys, acts)
    ensures |ys| == |acts| + 1
  {
  }

  lemma EnvIs(e: Env)
    requires EnvOk(e)
    ensures WellFormed(e)
  {
  }
}
