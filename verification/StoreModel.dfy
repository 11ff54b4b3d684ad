/**
 The replicated stores against the sequential store of src/models/kv.go: what a
 server does with a command is the model's step, and what it answers the only
 answer the model takes.
 */
module StoreModel {
  import opened Options
  import opened Linearizability
  import opened KvLocality
  import opened ShardGroup

  function CodeOf(op: OpKind): bv8 {
    match op
    case Get => 0
    case Put => 1
    case Append => 2
  }

  function InputOf(args: CommandArgs): KvValue { KvInput(CodeOf(args.op), args.key, args.value) }

  function OutputOf(reply: CommandReply): KvValue { KvOutput(reply.value) }

  /** Carrying out a command is a step of the model, which accepts the answer and ends in the same store. */
  lemma ExecuteIsStep(kv: map<string, string>, args: CommandArgs)
    ensures StoreStep(kv, InputOf(args), OutputOf(ReplyTo(kv, args))) == (true, Execute(kv, args))
  {
  }

  /** A Get can be answered in no other way, and has no key exactly if the store has none; a write returns nothing. */
  lemma ReplyExactly(kv: map<string, string>, args: CommandArgs, value: string)
    ensures args.op == Get ==> (StoreStep(kv, InputOf(args), KvOutput(value)).0 <==> value == ReplyTo(kv, args).value)
    ensures ReplyTo(kv, args).err == (if args.op == Get && args.key !in kv then ErrNoKey else OK)
    ensures args.op != Get ==> ReplyTo(kv, args).value == ""
  {
  }

  /** What a Get reads after a command: the new value, the old one with the new one behind it, or what was there. */
  lemma ReadBack(kv: map<string, string>, args: CommandArgs, get: CommandArgs)
    requires get.op == Get
    ensures var before, after := ReplyTo(kv, get), ReplyTo(Execute(kv, args), get);
            if get.key != args.key || args.op == Get then after == before
            else after == CommandReply(OK, if args.op == Put then args.value else before.value + args.value)
  {
  }

  // ---- Operations in the order they took effect

  /** An operation that was served, when, and what it was answered. */
  datatype Served = Served(at: int, args: CommandArgs, reply: CommandReply)

  /** The history of served operations, called and answered at the given times. */
  ghost function Timed(ops: seq<Served>, call: seq<int>, ret: seq<int>): History<KvValue> {
    History(seq(|ops|, i requires 0 <= i < |ops| => InputOf(ops[i].args)),
            seq(|ops|, i requires 0 <= i < |ops| => OutputOf(ops[i].reply)), call, ret)
  }

  /** Each operation took effect after it was called and before it was answered. */
  ghost predicate Between(ops: seq<Served>, call: seq<int>, ret: seq<int>) {
    |call| == |ops| == |ret| && forall i :: 0 <= i < |ops| ==> call[i] <= ops[i].at <= ret[i]
  }

  ghost predicate InTurn(ops: seq<Served>) {
    forall i, j :: 0 <= i < j < |ops| ==> ops[i].at < ops[j].at
  }

  /** The first `k` operations, in order. */
  function Firsts(k: nat): seq<int> { seq(k, i => i) }

  /** The model, run on the first `k` operations, accepts every answer and ends with `store`. */
  ghost predicate Replays(ops: seq<Served>, k: nat, store: map<string, string>) {
    k <= |ops| && Replay(STORE_MODEL, Timed(ops, seq(|ops|, _ => 0), seq(|ops|, _ => 0)), map[], Firsts(k)) ==
      Some(store)
  }

  lemma ReplaysNone(ops: seq<Served>)
    ensures Replays(ops, 0, map[])
  {
  }

  /** One operation more, answered as the store answers it. */
  lemma ReplaysNext(ops: seq<Served>, k: nat, store: map<string, string>)
    requires Replays(ops, k, store) && k < |ops| && ops[k].reply == ReplyTo(store, ops[k].args)
    ensures Replays(ops, k + 1, Execute(store, ops[k].args))
  {
    var h := Timed(ops, seq(|ops|, _ => 0), seq(|ops|, _ => 0));
    ReplaySnoc(STORE_MODEL, h, map[], Firsts(k), k);
    assert Firsts(k + 1) == Firsts(k) + [k];
    ExecuteIsStep(store, ops[k].args);
  }

  /** Operations that replay in the order they took effect are linearizable, whenever they were called and answered. */
  lemma ReplayedIsLinearizable(ops: seq<Served>, call: seq<int>, ret: seq<int>, store: map<string, string>)
    requires Between(ops, call, ret) && InTurn(ops) && Replays(ops, |ops|, store)
    ensures Timed(ops, call, ret).Valid() && Linearizable(STORE_MODEL, Timed(ops, call, ret))
  {
    var h, order := Timed(ops, call, ret), Firsts(|ops|);
    var zero := seq(|ops|, _ => 0);
    SameReplay(STORE_MODEL, h, Timed(ops, zero, zero), map[], order);
    forall i, j | 0 <= i < j < |order| ensures !Precedes(h, order[j], order[i]) {
      assert ops[i].at < ops[j].at;
    }
    assert Linearization(STORE_MODEL, h, order);
  }
}
