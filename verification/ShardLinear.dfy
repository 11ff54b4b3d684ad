/** The sharded store is linearizable: its groups together answer as one sequential store does. */
module ShardLinear {
  import opened Linearizability
  import opened KvLocality
  import opened ShardGroup
  import opened ShardSystem
  import opened ShardSafety
  import opened StoreModel

  /** Step `t` commits an operation at a group that serves its key and has not carried it out before. */
  ghost predicate Serves(e: Env, ys: seq<System>, acts: seq<Action>, t: int) {
    && 0 <= t < |acts| && t < |ys| && acts[t].CommitOperation?
    && (var (g, args) := (acts[t].gid, e.request(acts[t].clientId, acts[t].commandId));
        g in ys[t].groups && e.nShards > 0 && ys[t].groups[g].Sized(e.nShards) && Takes(ys[t].groups[g], args))
  }

  /** The operations served in the first `n` steps, with the answers the groups gave. */
  ghost function ServedIn(e: Env, ys: seq<System>, acts: seq<Action>, n: nat): seq<Served> {
    if n == 0 then []
    else
      var before := ServedIn(e, ys, acts, n - 1);
      if !Serves(e, ys, acts, n - 1) then before
      else
        var args := e.request(acts[n - 1].clientId, acts[n - 1].commandId);
        before + [Served(n - 1, args, ApplyOperation(ys[n - 1].groups[acts[n - 1].gid], args).1)]
  }

  lemma {:induction false} ServedInTurn(e: Env, ys: seq<System>, acts: seq<Action>, n: nat)
    ensures InTurn(ServedIn(e, ys, acts, n)) && forall x <- ServedIn(e, ys, acts, n) :: x.at < n
  {
    hide Serves, ApplyOperation;
    if n > 0 { ServedInTurn(e, ys, acts, n - 1); }
  }

  lemma {:induction false} ServedGrows(e: Env, ys: seq<System>, acts: seq<Action>, m: nat, n: nat)
    requires m <= n
    ensures ServedIn(e, ys, acts, m) <= ServedIn(e, ys, acts, n)
  {
    hide Serves, ApplyOperation;
    if m < n { ServedGrows(e, ys, acts, m, n - 1); }
  }

  /** A served operation is answered from the one store and carried out on it; nothing else changes it. */
  lemma StepServes(e: Env, ys: seq<System>, acts: seq<Action>, t: nat)
    requires EnvOk(e) && Run(e, ys, acts) && t < |acts|
    ensures if Serves(e, ys, acts, t) then
              var args := e.request(acts[t].clientId, acts[t].commandId);
              && ApplyOperation(ys[t].groups[acts[t].gid], args).1 == ReplyTo(ys[t].store, args)
              && ys[t + 1].store == Execute(ys[t].store, args)
            else ys[t + 1].store == ys[t].store
  {
    assert Next(e, ys[t], acts[t], ys[t + 1]);
    if Serves(e, ys, acts, t) {
      AnswersFromStore(e, ys, acts, t, acts[t].gid, e.request(acts[t].clientId, acts[t].commandId));
    }
    hide Run, EnvOk, ApplyOperation;
  }

  lemma StartsEmpty(e: Env, ys: seq<System>, acts: seq<Action>)
    requires Run(e, ys, acts)
    ensures |ys| == |acts| + 1 && ys[0].store == map[]
  {
  }

  lemma ServedNext(e: Env, ys: seq<System>, acts: seq<Action>, all: seq<Served>, n: nat)
    requires EnvOk(e) && Run(e, ys, acts) && n < |acts| && |ys| == |acts| + 1 && ServedIn(e, ys, acts, n + 1) <= all
    requires Replays(all, |ServedIn(e, ys, acts, n)|, ys[n].store)
    ensures Replays(all, |ServedIn(e, ys, acts, n + 1)|, ys[n + 1].store)
  {
    hide Run, EnvOk, Replays, ApplyOperation, Execute, ReplyTo;
    StepServes(e, ys, acts, n);
    if Serves(e, ys, acts, n) {
      var k := |ServedIn(e, ys, acts, n)|;
      assert all[k] == ServedIn(e, ys, acts, n + 1)[k];
      ReplaysNext(all, k, ys[n].store);
    }
  }

  /**
   The operations served, in the order they were committed, with the answers they were given, are a
   run of the sequential store, which ends as the shards together do.
   */
  lemma {:induction false} ServedReplays(e: Env, ys: seq<System>, acts: seq<Action>, n: nat)
    requires EnvOk(e) && Run(e, ys, acts) && n <= |acts|
    ensures |ys| == |acts| + 1 && Replays(ServedIn(e, ys, acts, |acts|), |ServedIn(e, ys, acts, n)|, ys[n].store)
  {
    hide Run, EnvOk, Replays, Serves;
    StartsEmpty(e, ys, acts);
    if n == 0 {
      ReplaysNone(ServedIn(e, ys, acts, |acts|));
    } else {
      ServedReplays(e, ys, acts, n - 1);
      ServedGrows(e, ys, acts, n, |acts|);
      ServedNext(e, ys, acts, ServedIn(e, ys, acts, |acts|), n - 1);
    }
  }

  /**
   So whatever the moments of call and answer, as long as each operation is committed between them,
   all is linearizable.
   */
  lemma ShardsLinearizable(e: Env, ys: seq<System>, acts: seq<Action>, call: seq<int>, ret: seq<int>)
    requires EnvOk(e) && Run(e, ys, acts) && Between(ServedIn(e, ys, acts, |acts|), call, ret)
    ensures var h := Timed(ServedIn(e, ys, acts, |acts|), call, ret);
            h.Valid() && Linearizable(STORE_MODEL, h)
  {
    ServedReplays(e, ys, acts, |acts|);
    ServedInTurn(e, ys, acts, |acts|);
    hide Run, EnvOk;
    ReplayedIsLinearizable(ServedIn(e, ys, acts, |acts|), call, ret, ys[|acts|].store);
  }
}
