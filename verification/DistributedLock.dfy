/** The token-guarded lock shared by the C# services and the Python worker: SET key token NX with
    a time to live, and a script that deletes the key only if it still holds the caller's token.
    Any number of clients of either kind attempt, hold, release and give up in any order, on one
    clock that does not go back; each acquisition draws a fresh token. */
module DistributedLock {

  type Token = nat
  type LockKey = nat

  datatype Lock = Lock(token: Token, expira: int)

  predicate LiveAt(locks: map<LockKey, Lock>, agora: int, key: LockKey) {
    key in locks && agora <= locks[key].expira
  }

  function SetNx(locks: map<LockKey, Lock>, agora: int, key: LockKey, token: Token, ttl: nat): map<LockKey, Lock> {
    if LiveAt(locks, agora, key) then locks else locks[key := Lock(token, agora + ttl)]
  }

  /** The release script; it answers 1 when it deleted the key. */
  predicate Owns(locks: map<LockKey, Lock>, agora: int, key: LockKey, token: Token) {
    LiveAt(locks, agora, key) && locks[key].token == token
  }

  function ReleaseScript(locks: map<LockKey, Lock>, agora: int, key: LockKey, token: Token): map<LockKey, Lock> {
    if Owns(locks, agora, key, token) then locks - {key} else locks
  }

  class Redis {
    var locks: map<LockKey, Lock>

    constructor ()
      ensures locks == map[]
    {
      locks := map[];
    }

    method StringSetIfAbsent(agora: int, key: LockKey, token: Token, ttl: nat) returns (acquired: bool)
      modifies this
      ensures acquired == !LiveAt(old(locks), agora, key)
      ensures acquired <==> key !in old(locks) || old(locks)[key].expira < agora
      ensures locks == if acquired then old(locks)[key := Lock(token, agora + ttl)] else old(locks)
      ensures locks == SetNx(old(locks), agora, key, token, ttl)
    {
      acquired := key !in locks || locks[key].expira < agora;
      if acquired {
        locks := locks[key := Lock(token, agora + ttl)];
      }
    }

    method Release(agora: int, key: LockKey, token: Token) returns (deleted: nat)
      modifies this
      ensures deleted == if Owns(old(locks), agora, key, token) then 1 else 0
      ensures locks == ReleaseScript(old(locks), agora, key, token)
      ensures deleted == 1 <==>
              key in old(locks) && agora <= old(locks)[key].expira && old(locks)[key].token == token
      ensures deleted == 0 || deleted == 1
      ensures locks == if deleted == 1 then old(locks) - {key} else old(locks)
    {
      deleted := 0;
      if key in locks && agora <= locks[key].expira && locks[key].token == token {
        locks := locks - {key};
        deleted := 1;
      }
    }
  }

  /** What a successful C# acquisition returns: disposing it twice releases once. */
  class DistributedLockReleaser {
    const key: LockKey
    const token: Token
    var isReleased: bool

    constructor (key: LockKey, token: Token)
      ensures this.key == key && this.token == token && !isReleased
    {
      this.key, this.token, isReleased := key, token, false;
    }

    method Dispose(redis: Redis, agora: int)
      modifies this, redis
      ensures isReleased
      ensures redis.locks
              == if !old(isReleased) && key in old(redis.locks)
                    && agora <= old(redis.locks)[key].expira && old(redis.locks)[key].token == token
                 then old(redis.locks) - {key} else old(redis.locks)
      ensures redis.locks
              == if old(isReleased) then old(redis.locks) else ReleaseScript(old(redis.locks), agora, key, token)
    {
      if isReleased {
        return;
      }
      isReleased := true;
      var _ := redis.Release(agora, key, token);
    }
  }

  // ---------------------------------------------------------------- the protocol

  datatype Phase =
    | Tentando
    | Obteve(em: int, liberou: bool)
    | Desistiu

  /** A client is one call of TryAcquireLockAsync or of distributed_lock; its index is its token. */
  datatype Client = Client(key: LockKey, ttl: nat, phase: Phase)

  datatype State = State(locks: map<LockKey, Lock>, agora: int, clients: seq<Client>)

  datatype Step = Esperar(ate: int) | Tentar(c: nat) | Liberar(c: nat) | Desistir(c: nat)

  /** A client may release late, after its lock expired, and more than once. */
  ghost predicate Allowed(s: State, step: Step) {
    match step
    case Esperar(ate) => s.agora <= ate
    case Tentar(c) => c < |s.clients| && s.clients[c].phase.Tentando?
    case Liberar(c) => c < |s.clients| && s.clients[c].phase.Obteve?
    case Desistir(c) => c < |s.clients| && s.clients[c].phase.Tentando?
  }

  ghost predicate Acquires(s: State, step: Step) {
    step.Tentar? && Allowed(s, step) && !LiveAt(s.locks, s.agora, s.clients[step.c].key)
  }

  ghost function Take(s: State, step: Step): State
    requires Allowed(s, step)
  {
    match step
    case Esperar(ate) => s.(agora := ate)
    case Tentar(c) =>
      var me := s.clients[c];
      State(SetNx(s.locks, s.agora, me.key, c, me.ttl),
            s.agora,
            if Acquires(s, step) then s.clients[c := me.(phase := Obteve(s.agora, false))] else s.clients)
    case Liberar(c) =>
      var me := s.clients[c];
      State(ReleaseScript(s.locks, s.agora, me.key, c), s.agora, s.clients[c := me.(phase := Obteve(me.phase.em, true))])
    case Desistir(c) =>
      s.(clients := s.clients[c := s.clients[c].(phase := Desistiu)])
  }

  /** From its acquisition to its release or to the end of its time to live. */
  ghost predicate Holds(s: State, c: nat) {
    && c < |s.clients|
    && s.clients[c].phase.Obteve?
    && !s.clients[c].phase.liberou
    && s.agora <= s.clients[c].phase.em + s.clients[c].ttl
  }

  /** Every stored token belongs to a client of that key that acquired and has not released. */
  ghost predicate TokenKnown(s: State, key: LockKey)
    requires key in s.locks
  {
    var l := s.locks[key];
    && l.token < |s.clients|
    && s.clients[l.token].key == key
    && s.clients[l.token].phase.Obteve?
    && l.expira == s.clients[l.token].phase.em + s.clients[l.token].ttl
    && (s.agora <= l.expira ==> !s.clients[l.token].phase.liberou)
  }

  ghost predicate Inv(s: State) {
    && (forall c :: 0 <= c < |s.clients| && Holds(s, c) ==> Owns(s.locks, s.agora, s.clients[c].key, c))
    && (forall key :: key in s.locks ==> TokenKnown(s, key))
    && (forall c :: 0 <= c < |s.clients| && s.clients[c].phase.Obteve? ==> s.clients[c].phase.em <= s.agora)
  }

  lemma TakeKeepsInv(s: State, step: Step)
    requires Inv(s) && Allowed(s, step)
    ensures Inv(Take(s, step))
  {
    var s' := Take(s, step);
    forall c | 0 <= c < |s'.clients| && Holds(s', c) ensures Owns(s'.locks, s'.agora, s'.clients[c].key, c) {
      assert Holds(s, c) || (Acquires(s, step) && step.c == c);
    }
    forall key | key in s'.locks ensures TokenKnown(s', key) {
      if key in s.locks {
        assert TokenKnown(s, key);
      }
    }
  }

  ghost predicate IsRun(run: seq<State>, steps: seq<Step>) {
    && |run| == |steps| + 1
    && run[0].locks == map[]
    && (forall c :: 0 <= c < |run[0].clients| ==> run[0].clients[c].phase.Tentando?)
    && forall i :: 0 <= i < |steps| ==> Allowed(run[i], steps[i]) && run[i + 1] == Take(run[i], steps[i])
  }

  lemma {:induction false} RunKeepsInv(run: seq<State>, steps: seq<Step>, i: nat)
    requires IsRun(run, steps) && i < |run|
    ensures Inv(run[i])
  {
    if i > 0 {
      RunKeepsInv(run, steps, i - 1);
      TakeKeepsInv(run[i - 1], steps[i - 1]);
    }
  }

  /** Two clients never hold the same lock at once. */
  lemma MutualExclusion(run: seq<State>, steps: seq<Step>, i: nat, c: nat, d: nat)
    requires IsRun(run, steps) && i < |run|
    requires Holds(run[i], c) && Holds(run[i], d) && run[i].clients[c].key == run[i].clients[d].key
    ensures c == d
  {
    RunKeepsInv(run, steps, i);
  }

  /** An attempt succeeds exactly when no client holds the lock at that moment. */
  lemma AcquiresIffFree(run: seq<State>, steps: seq<Step>, i: nat)
    requires IsRun(run, steps) && i < |steps| && steps[i].Tentar?
    ensures Acquires(run[i], steps[i]) <==>
              forall d :: 0 <= d < |run[i].clients| && run[i].clients[d].key == run[i].clients[steps[i].c].key ==>
                            !Holds(run[i], d)
  {
    RunKeepsInv(run, steps, i);
    var s := run[i];
    assert Allowed(s, steps[i]);
    var key := s.clients[steps[i].c].key;
    if LiveAt(s.locks, s.agora, key) {
      assert TokenKnown(s, key);
      assert Holds(s, s.locks[key].token);
    }
  }

  /** Releasing, however late or often, takes the lock from nobody but the caller. */
  lemma ReleaseSparesOthers(run: seq<State>, steps: seq<Step>, i: nat, d: nat)
    requires IsRun(run, steps) && i < |steps| && steps[i].Liberar?
    requires d != steps[i].c && Holds(run[i], d)
    ensures Holds(run[i + 1], d) && Owns(run[i + 1].locks, run[i + 1].agora, run[i + 1].clients[d].key, d)
  {
    assert Allowed(run[i], steps[i]);
    RunKeepsInv(run, steps, i);
    RunKeepsInv(run, steps, i + 1);
  }

  /** Between an acquisition and a later one of the same lock, the first holder released or its
      time to live ran out. */
  lemma AcquisitionsSeparated(run: seq<State>, steps: seq<Step>, i: nat, j: nat)
    requires IsRun(run, steps) && i < j < |steps|
    requires Acquires(run[i], steps[i]) && Acquires(run[j], steps[j])
    requires run[i].clients[steps[i].c].key == run[j].clients[steps[j].c].key
    ensures run[j].agora > run[i].agora + run[i].clients[steps[i].c].ttl
            || exists k :: i < k < j && steps[k] == Liberar(steps[i].c)
  {
    if forall k :: i < k < j ==> steps[k] != Liberar(steps[i].c) {
      StillAcquired(run, steps, i, j);
      AcquiresIffFree(run, steps, j);
    }
  }

  lemma {:induction false} StillAcquired(run: seq<State>, steps: seq<Step>, i: nat, j: nat)
    requires IsRun(run, steps) && i < j < |run| && Acquires(run[i], steps[i])
    requires forall k :: i < k < j ==> steps[k] != Liberar(steps[i].c)
    ensures var c := steps[i].c;
            && c < |run[j].clients|
            && run[j].clients[c] == run[i].clients[c].(phase := Obteve(run[i].agora, false))
  {
    assert Allowed(run[j - 1], steps[j - 1]) && run[j] == Take(run[j - 1], steps[j - 1]);
    if i < j - 1 {
      StillAcquired(run, steps, i, j - 1);
    }
  }

  /** A client holds what it acquired exactly as long as its time to live runs, unless it releases;
      and as long as it does the server has its token, so its release is the one that counts. */
  lemma HoldsExactly(run: seq<State>, steps: seq<Step>, i: nat, j: nat)
    requires IsRun(run, steps) && i < j < |run| && Acquires(run[i], steps[i])
    requires forall k :: i < k < j ==> steps[k] != Liberar(steps[i].c)
    ensures Holds(run[j], steps[i].c) <==> run[j].agora <= run[i].agora + run[i].clients[steps[i].c].ttl
    ensures Holds(run[j], steps[i].c) ==>
              var key := run[i].clients[steps[i].c].key;
              key in run[j].locks && run[j].locks[key] == Lock(steps[i].c, run[i].agora + run[i].clients[steps[i].c].ttl)
  {
    StillAcquired(run, steps, i, j);
    RunKeepsInv(run, steps, j);
    if Holds(run[j], steps[i].c) {
      assert TokenKnown(run[j], run[i].clients[steps[i].c].key);
    }
  }

  /** A holder that releases leaves the lock free: the next attempt of any client on it succeeds. */
  lemma ReleaseFrees(run: seq<State>, steps: seq<Step>, i: nat, d: nat)
    requires IsRun(run, steps) && i < |steps| && steps[i].Liberar? && Holds(run[i], steps[i].c)
    requires d < |run[i + 1].clients| && run[i + 1].clients[d].phase.Tentando?
    requires run[i + 1].clients[d].key == run[i].clients[steps[i].c].key
    ensures !Holds(run[i + 1], steps[i].c)
    ensures Acquires(run[i + 1], Tentar(d))
  {
    RunKeepsInv(run, steps, i);
    assert Allowed(run[i], steps[i]) && run[i + 1] == Take(run[i], steps[i]);
  }
}
