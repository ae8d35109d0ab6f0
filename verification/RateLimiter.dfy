/** The sliding-window rate limiter: one Lua script over a Redis sorted set, run atomically per
    request. Times and the window are in milliseconds; a member is the request's time with a
    random suffix, taken here as an input. The limit and the window of a key are fixed, and API
    and Redis share one clock that does not go back. */
module RateLimiter {

  datatype Member = Member(instante: int, sufixo: nat)

  /** The sorted set and its expiry. A key past its expiry reads as absent. */
  datatype Key = Key(zset: map<Member, int>, expira: int)

  datatype Reply = Reply(permitido: bool, contagem: nat, esperaMs: int)

  datatype Call = Call(agora: int, sufixo: nat)

  function Present(k: Key, agora: int): map<Member, int> {
    if agora > k.expira then map[] else k.zset
  }

  /** zremrangebyscore key -inf (agora - janela) */
  function Pruned(k: Key, agora: int, janela: nat): map<Member, int> {
    map m | m in Present(k, agora) && k.zset[m] > agora - janela :: k.zset[m]
  }

  lemma {:induction false} OldestExists(z: map<Member, int>, ms: set<Member>)
    requires ms != {} && ms <= z.Keys
    ensures exists m :: m in ms && forall n :: n in ms ==> z[m] <= z[n]
  {
    var x :| x in ms;
    if ms == {x} {
      assert x in ms && forall n :: n in ms ==> z[x] <= z[n];
    } else {
      OldestExists(z, ms - {x});
      var m :| m in ms - {x} && forall n :: n in ms - {x} ==> z[m] <= z[n];
      var least := if z[x] <= z[m] then x else m;
      forall n | n in ms ensures z[least] <= z[n] {
        if n != x {
          assert n in ms - {x};
        }
      }
      assert least in ms;
    }
  }

  /** zrange key 0 0 WITHSCORES: the lowest score. */
  function Oldest(z: map<Member, int>): (score: int)
    requires z != map[]
    ensures exists m :: m in z && z[m] == score
    ensures forall m :: m in z ==> score <= z[m]
  {
    assert exists s :: s in z.Values && forall m :: m in z ==> s <= z[m] by {
      OldestExists(z, z.Keys);
      var m :| m in z.Keys && forall n :: n in z.Keys ==> z[m] <= z[n];
      assert z[m] in z.Values;
    }
    var score :| score in z.Values && forall m :: m in z ==> score <= z[m];
    score
  }

  function Max(a: int, b: int): int {
    if a < b then b else a
  }

  function ReplyTo(k: Key, c: Call, janela: nat, limite: int): Reply {
    var z := Pruned(k, c.agora, janela);
    if |z| < limite then Reply(true, |z| + 1, 0)
    else Reply(false, |z|, if z == map[] then 1000 else Max(1, Oldest(z) + janela - c.agora))
  }

  function After(k: Key, c: Call, janela: nat, limite: int): Key {
    var z := Pruned(k, c.agora, janela);
    if |z| < limite then Key(z[Member(c.agora, c.sufixo) := c.agora], c.agora + janela)
    else Key(z, k.expira)
  }

  /** The members that have neither expired with the key nor left the window. */
  ghost function Alive(k: Key, agora: int, janela: nat): set<Member> {
    set m | m in k.zset && agora <= k.expira && k.zset[m] > agora - janela
  }

  /** A request is accepted when fewer than the limit are alive, and then counted, added and given
      a whole window; the others alive are kept as they are, and the rest is gone. */
  ghost predicate Scripted(k: Key, k': Key, c: Call, r: Reply, janela: nat, limite: int) {
    var live, m := Alive(k, c.agora, janela), Member(c.agora, c.sufixo);
    && (r.permitido <==> |live| < limite)
    && (forall x :: x in live && x != m ==> x in k'.zset && k'.zset[x] == k.zset[x])
    && (if r.permitido then
          && r.contagem == |live| + 1 && r.esperaMs == 0 && k'.expira == c.agora + janela
          && k'.zset.Keys == live + {m} && k'.zset[m] == c.agora
        else
          && r.contagem == |live| && k'.expira == k.expira && k'.zset.Keys == live
          && (live == {} ==> r.esperaMs == 1000))
  }

  lemma PrunedIsAlive(k: Key, agora: int, janela: nat)
    ensures Pruned(k, agora, janela).Keys == Alive(k, agora, janela)
    ensures |Pruned(k, agora, janela)| == |Alive(k, agora, janela)|
  {
    assert Pruned(k, agora, janela).Keys == Alive(k, agora, janela);
    assert |Pruned(k, agora, janela)| == |Pruned(k, agora, janela).Keys|;
  }

  lemma ScriptedStep(k: Key, c: Call, janela: nat, limite: int)
    ensures Scripted(k, After(k, c, janela, limite), c, ReplyTo(k, c, janela, limite), janela, limite)
  {
    PrunedIsAlive(k, c.agora, janela);
  }

  /** One client's key, as the script updates it. */
  class SlidingWindow {
    const janela: nat
    const limite: int
    var zset: map<Member, int>
    var expira: int

    ghost function Contents(): Key
      reads this
    {
      Key(zset, expira)
    }

    constructor (janela: nat, limite: int)
      ensures this.janela == janela && this.limite == limite && Contents() == Key(map[], 0)
    {
      this.janela, this.limite, zset, expira := janela, limite, map[], 0;
    }

    method CheckRateLimit(c: Call) returns (r: Reply)
      modifies this
      ensures r == ReplyTo(old(Contents()), c, janela, limite)
      ensures Contents() == After(old(Contents()), c, janela, limite)
      ensures Scripted(old(Contents()), Contents(), c, r, janela, limite)
    {
      ScriptedStep(Contents(), c, janela, limite);
      if c.agora > expira {
        zset := map[];
      }
      zset := map m | m in zset && zset[m] > c.agora - janela :: zset[m];
      assert zset == Pruned(old(Contents()), c.agora, janela);
      var current := |zset|;
      if current < limite {
        zset := zset[Member(c.agora, c.sufixo) := c.agora];
        expira := c.agora + janela;
        r := Reply(true, current + 1, 0);
      } else {
        var esperaMs := 1000;
        if zset != map[] {
          esperaMs := Max(1, Oldest(zset) + janela - c.agora);
        }
        r := Reply(false, current, esperaMs);
      }
    }
  }

  // ---------------------------------------------------------------- the reference: a full log

  /** How many requests of the log fall in (de, ate]. */
  ghost function CountIn(log: seq<Member>, de: int, ate: int): nat {
    if log == [] then 0
    else
      CountIn(log[..|log| - 1], de, ate) + if de < log[|log| - 1].instante <= ate then 1 else 0
  }

  ghost predicate Distinct(log: seq<Member>) {
    forall i, j :: 0 <= i < j < |log| ==> log[i] != log[j]
  }

  ghost predicate Ordered(log: seq<Member>) {
    forall i, j :: 0 <= i < j < |log| ==> log[i].instante <= log[j].instante
  }

  /** The log's members still inside the window at `agora`. */
  ghost function Window(log: seq<Member>, agora: int, janela: nat): set<Member> {
    set m | m in log && m.instante > agora - janela
  }

  /** What the pruned, expiring set keeps of the whole log, at any time from `agora` on. */
  ghost predicate Represents(k: Key, log: seq<Member>, agora: int, janela: nat) {
    && Ordered(log)
    && (forall m :: m in log ==> m.instante <= agora)
    && (forall m :: m in k.zset ==> m in log && k.zset[m] == m.instante)
    && (forall m :: m in Window(log, agora, janela) ==> m in k.zset)
    && (log != [] ==> k.expira == log[|log| - 1].instante + janela)
    && (log == [] ==> k.zset == map[])
  }

  lemma PrunedIsWindow(k: Key, log: seq<Member>, antes: int, agora: int, janela: nat)
    requires Represents(k, log, antes, janela) && antes <= agora
    ensures Pruned(k, agora, janela).Keys == Window(log, agora, janela)
  {
    var z := Pruned(k, agora, janela);
    forall m | m in Window(log, agora, janela) ensures m in z {
      assert m in Window(log, antes, janela);
      var i :| 0 <= i < |log| && log[i] == m;
      assert m.instante <= log[|log| - 1].instante;
    }
  }

  lemma DeniedRepresents(k: Key, log: seq<Member>, antes: int, agora: int, janela: nat)
    requires Represents(k, log, antes, janela) && antes <= agora
    ensures Represents(Key(Pruned(k, agora, janela), k.expira), log, agora, janela)
  {
    PrunedIsWindow(k, log, antes, agora, janela);
    assert forall m :: m in Pruned(k, agora, janela) <==> m in Window(log, agora, janela);
  }

  lemma AcceptedRepresents(k: Key, log: seq<Member>, c: Call, janela: nat)
    requires Represents(k, log, c.agora, janela)
    ensures Represents(Key(k.zset[Member(c.agora, c.sufixo) := c.agora], c.agora + janela),
                       log + [Member(c.agora, c.sufixo)], c.agora, janela)
  {
    var m := Member(c.agora, c.sufixo);
    WindowNext(log, m, c.agora, janela);
    forall i, j | 0 <= i < j < |log + [m]| ensures (log + [m])[i].instante <= (log + [m])[j].instante {
      assert (log + [m])[i] in log;
    }
  }

  lemma StepRepresents(k: Key, log: seq<Member>, antes: int, c: Call, janela: nat, limite: int)
    requires Represents(k, log, antes, janela) && antes <= c.agora
    ensures Represents(After(k, c, janela, limite), Logged(k, log, c, janela, limite), c.agora, janela)
  {
    DeniedRepresents(k, log, antes, c.agora, janela);
    AcceptedRepresents(Key(Pruned(k, c.agora, janela), k.expira), log, c, janela);
  }

  /** The log gains the request when it is accepted. */
  ghost function Logged(k: Key, log: seq<Member>, c: Call, janela: nat, limite: int): seq<Member> {
    if ReplyTo(k, c, janela, limite).permitido then log + [Member(c.agora, c.sufixo)] else log
  }

  lemma {:induction false} WindowCounts(log: seq<Member>, agora: int, janela: nat)
    requires forall m :: m in log ==> m.instante <= agora
    ensures |Window(log, agora, janela)| <= CountIn(log, agora - janela, agora)
    ensures Distinct(log) ==> |Window(log, agora, janela)| == CountIn(log, agora - janela, agora)
  {
    if log == [] {
      assert Window(log, agora, janela) == {};
    } else {
      var n := |log| - 1;
      WindowCounts(log[..n], agora, janela);
      WindowNext(log[..n], log[n], agora, janela);
      OneMore(Window(log[..n], agora, janela), log[n]);
      assert log == log[..n] + [log[n]];
      if Distinct(log) {
        assert log[n] !in log[..n];
      }
    }
  }

  lemma OneMore(s: set<Member>, m: Member)
    ensures |s + {m}| == |s| + if m in s then 0 else 1
  {
    if m in s {
      assert s + {m} == s;
    }
  }

  lemma WindowNext(log: seq<Member>, m: Member, agora: int, janela: nat)
    ensures Window(log + [m], agora, janela)
            == Window(log, agora, janela) + if m.instante > agora - janela then {m} else {}
  {
  }

  // ---------------------------------------------------------------- whole runs

  datatype Sys = Sys(key: Key, log: seq<Member>, agora: int)

  ghost predicate StepBy(s: Sys, s': Sys, c: Call, janela: nat, limite: int) {
    && s.agora <= c.agora
    && s' == Sys(After(s.key, c, janela, limite), Logged(s.key, s.log, c, janela, limite), c.agora)
  }

  ghost predicate IsRun(run: seq<Sys>, calls: seq<Call>, janela: nat, limite: int) {
    && |run| == |calls| + 1
    && run[0].key.zset == map[] && run[0].log == []
    && forall i :: 0 <= i < |calls| ==> StepBy(run[i], run[i + 1], calls[i], janela, limite)
  }

  lemma {:induction false} RunRepresents(run: seq<Sys>, calls: seq<Call>, janela: nat, limite: int, i: nat)
    requires IsRun(run, calls, janela, limite) && i < |run|
    ensures Represents(run[i].key, run[i].log, run[i].agora, janela)
  {
    if i > 0 {
      RunRepresents(run, calls, janela, limite, i - 1);
      assert StepBy(run[i - 1], run[i], calls[i - 1], janela, limite);
      StepRepresents(run[i - 1].key, run[i - 1].log, run[i - 1].agora, calls[i - 1], janela, limite);
    }
  }

  lemma StateAt(run: seq<Sys>, calls: seq<Call>, janela: nat, limite: int, i: nat)
    requires IsRun(run, calls, janela, limite) && i < |calls|
    ensures Represents(run[i].key, run[i].log, run[i].agora, janela) && run[i].agora <= calls[i].agora
    ensures forall m :: m in run[i].log ==> m.instante <= calls[i].agora
  {
    RunRepresents(run, calls, janela, limite, i);
    assert StepBy(run[i], run[i + 1], calls[i], janela, limite);
  }

  lemma DecidesOne(s: Sys, c: Call, janela: nat, limite: int)
    requires Represents(s.key, s.log, s.agora, janela) && s.agora <= c.agora
    ensures ReplyTo(s.key, c, janela, limite).permitido <==> |Window(s.log, c.agora, janela)| < limite
    ensures |Window(s.log, c.agora, janela)| <= CountIn(s.log, c.agora - janela, c.agora)
    ensures Distinct(s.log) ==> |Window(s.log, c.agora, janela)| == CountIn(s.log, c.agora - janela, c.agora)
  {
    PrunedIsWindow(s.key, s.log, s.agora, c.agora, janela);
    var z := Pruned(s.key, c.agora, janela);
    assert |z| == |z.Keys|;
    WindowCounts(s.log, c.agora, janela);
  }

  /** Collisions hide enough requests of the window for the script to find room where the full log
      has none. */
  ghost predicate Overlooks(s: Sys, c: Call, janela: nat, limite: int) {
    |Window(s.log, c.agora, janela)| < limite <= CountIn(s.log, c.agora - janela, c.agora)
  }

  /** Whatever the suffixes, the script accepts exactly when fewer than `limite` distinct members
      of the whole log lie in the window. So it never denies what the full log would accept. */
  lemma DecidesByDistinctMembers(run: seq<Sys>, calls: seq<Call>, janela: nat, limite: int, i: nat)
    requires IsRun(run, calls, janela, limite) && i < |calls|
    ensures ReplyTo(run[i].key, calls[i], janela, limite).permitido <==>
              |Window(run[i].log, calls[i].agora, janela)| < limite
    ensures CountIn(run[i].log, calls[i].agora - janela, calls[i].agora) < limite ==>
              ReplyTo(run[i].key, calls[i], janela, limite).permitido
  {
    StateAt(run, calls, janela, limite, i);
    DecidesOne(run[i], calls[i], janela, limite);
  }

  /** The script decides as the full log of accepted times would exactly when collisions do not
      hide enough requests, and so always with distinct members. */
  lemma DecidesAsFullLog(run: seq<Sys>, calls: seq<Call>, janela: nat, limite: int, i: nat)
    requires IsRun(run, calls, janela, limite) && i < |calls|
    ensures (ReplyTo(run[i].key, calls[i], janela, limite).permitido
             <==> CountIn(run[i].log, calls[i].agora - janela, calls[i].agora) < limite)
            <==> !Overlooks(run[i], calls[i], janela, limite)
    ensures Distinct(run[i].log) ==> !Overlooks(run[i], calls[i], janela, limite)
  {
    StateAt(run, calls, janela, limite, i);
    WindowCounts(run[i].log, calls[i].agora, janela);
    DecidesByDistinctMembers(run, calls, janela, limite, i);
  }

  lemma {:induction false} CountMonotone(log: seq<Member>, de: int, ate: int, de': int, ate': int)
    requires de' <= de && ate <= ate'
    ensures CountIn(log, de, ate) <= CountIn(log, de', ate')
  {
    if log != [] {
      CountMonotone(log[..|log| - 1], de, ate, de', ate');
    }
  }

  lemma {:induction false} CountUpTo(log: seq<Member>, de: int, ate: int, agora: int)
    requires agora <= ate && forall m :: m in log ==> m.instante <= agora
    ensures CountIn(log, de, ate) == CountIn(log, de, agora)
  {
    if log != [] {
      CountUpTo(log[..|log| - 1], de, ate, agora);
    }
  }

  /** A request accepted under the limit overfills no interval. */
  lemma AppendUnderLimit(log: seq<Member>, m: Member, janela: nat, limite: nat, t: int)
    requires forall x :: x in log ==> x.instante <= m.instante
    requires CountIn(log, t - janela, t) <= limite
    requires CountIn(log, m.instante - janela, m.instante) < limite
    ensures CountIn(log + [m], t - janela, t) <= limite
  {
    assert (log + [m])[..|log|] == log;
    if t >= m.instante {
      CountUpTo(log, t - janela, t, m.instante);
      CountMonotone(log, t - janela, m.instante, m.instante - janela, m.instante);
    }
  }

  ghost predicate UnderAt(log: seq<Member>, t: int, janela: nat, limite: int) {
    CountIn(log, t - janela, t) <= limite
  }

  /** No interval (t - janela, t] holds more than `limite` accepted requests. */
  ghost predicate UnderLimit(log: seq<Member>, janela: nat, limite: int) {
    forall t: int :: UnderAt(log, t, janela, limite)
  }

  lemma StepUnderLimit(s: Sys, s': Sys, c: Call, janela: nat, limite: nat, t: int)
    requires StepBy(s, s', c, janela, limite) && Represents(s.key, s.log, s.agora, janela)
    requires !Overlooks(s, c, janela, limite) && UnderAt(s.log, t, janela, limite)
    ensures UnderAt(s'.log, t, janela, limite)
  {
    if !Denied(s, c, janela, limite) {
      DecidesOne(s, c, janela, limite);
      AppendUnderLimit(s.log, Member(c.agora, c.sufixo), janela, limite, t);
    }
  }

  lemma {:induction false} UnderUntil(run: seq<Sys>, calls: seq<Call>, janela: nat, limite: nat, i: nat, t: int)
    requires IsRun(run, calls, janela, limite) && i < |run|
    requires forall k :: 0 <= k < i ==> !Overlooks(run[k], calls[k], janela, limite)
    ensures UnderAt(run[i].log, t, janela, limite)
  {
    if i > 0 {
      assert StepBy(run[i - 1], run[i], calls[i - 1], janela, limite);
      UnderUntil(run, calls, janela, limite, i - 1, t);
      RunRepresents(run, calls, janela, limite, i - 1);
      StepUnderLimit(run[i - 1], run[i], calls[i - 1], janela, limite, t);
    }
  }

  lemma {:induction false} EmptyInterval(log: seq<Member>, t: int)
    ensures CountIn(log, t, t) == 0
  {
    if log != [] {
      EmptyInterval(log[..|log| - 1], t);
    }
  }

  lemma LoggedCounts(s: Sys, s': Sys, c: Call, janela: nat, limite: int, de: int, ate: int)
    requires StepBy(s, s', c, janela, limite)
    ensures CountIn(s'.log, de, ate)
            == CountIn(s.log, de, ate)
               + if ReplyTo(s.key, c, janela, limite).permitido && de < c.agora <= ate then 1 else 0
  {
    assert (s.log + [Member(c.agora, c.sufixo)])[..|s.log|] == s.log;
  }

  lemma {:induction false} CountGrows(run: seq<Sys>, calls: seq<Call>, janela: nat, limite: int,
                                      i: nat, j: nat, de: int, ate: int)
    requires IsRun(run, calls, janela, limite) && i <= j < |run|
    ensures CountIn(run[i].log, de, ate) <= CountIn(run[j].log, de, ate)
  {
    if i < j {
      CountGrows(run, calls, janela, limite, i, j - 1, de, ate);
      assert StepBy(run[j - 1], run[j], calls[j - 1], janela, limite);
      LoggedCounts(run[j - 1], run[j], calls[j - 1], janela, limite, de, ate);
    }
  }

  /** A request admitted by oversight overfills the window that ends with it, for good. */
  lemma OversightExceeds(run: seq<Sys>, calls: seq<Call>, janela: nat, limite: nat, k: nat, i: nat)
    requires IsRun(run, calls, janela, limite) && k < i < |run|
    requires Overlooks(run[k], calls[k], janela, limite)
    ensures !UnderAt(run[i].log, calls[k].agora, janela, limite)
  {
    var agora := calls[k].agora;
    if janela == 0 {
      EmptyInterval(run[k].log, agora);
    }
    DecidesByDistinctMembers(run, calls, janela, limite, k);
    assert StepBy(run[k], run[k + 1], calls[k], janela, limite);
    LoggedCounts(run[k], run[k + 1], calls[k], janela, limite, agora - janela, agora);
    CountGrows(run, calls, janela, limite, k + 1, i, agora - janela, agora);
  }

  lemma LogGrows(s: Sys, s': Sys, c: Call, janela: nat, limite: int)
    requires StepBy(s, s', c, janela, limite) && Distinct(s'.log)
    ensures Distinct(s.log)
  {
    assert forall i :: 0 <= i < |s.log| ==> s.log[i] == s'.log[i];
  }

  lemma {:induction false} PrefixDistinct(run: seq<Sys>, calls: seq<Call>, janela: nat, limite: int, k: nat, i: nat)
    requires IsRun(run, calls, janela, limite) && k <= i < |run| && Distinct(run[i].log)
    ensures Distinct(run[k].log)
  {
    if k < i {
      assert StepBy(run[i - 1], run[i], calls[i - 1], janela, limite);
      LogGrows(run[i - 1], run[i], calls[i - 1], janela, limite);
      PrefixDistinct(run, calls, janela, limite, k, i - 1);
    }
  }

  /** No interval ever holds more accepted requests than the limit exactly when no request was
      admitted by oversight; with distinct members none is. */
  lemma NeverOverLimit(run: seq<Sys>, calls: seq<Call>, janela: nat, limite: nat, i: nat)
    requires IsRun(run, calls, janela, limite) && i < |run|
    ensures UnderLimit(run[i].log, janela, limite)
            <==> forall k :: 0 <= k < i ==> !Overlooks(run[k], calls[k], janela, limite)
    ensures Distinct(run[i].log) ==> UnderLimit(run[i].log, janela, limite)
  {
    if Distinct(run[i].log) {
      forall k | 0 <= k < i ensures !Overlooks(run[k], calls[k], janela, limite) {
        PrefixDistinct(run, calls, janela, limite, k, i);
        DecidesAsFullLog(run, calls, janela, limite, k);
      }
    }
    if forall k :: 0 <= k < i ==> !Overlooks(run[k], calls[k], janela, limite) {
      forall t: int ensures UnderAt(run[i].log, t, janela, limite) {
        UnderUntil(run, calls, janela, limite, i, t);
      }
    } else {
      var k :| 0 <= k < i && Overlooks(run[k], calls[k], janela, limite);
      OversightExceeds(run, calls, janela, limite, k, i);
    }
  }

  /** Two requests of the same millisecond that draw the same suffix count once: three requests
      then pass a limit of two. */
  lemma CollisionsOverAdmit()
    ensures var c := Call(0, 1000);
            var k0 := Key(map[], 0);
            var k1 := After(k0, c, 60_000, 2);
            var k2 := After(k1, c, 60_000, 2);
            && ReplyTo(k0, c, 60_000, 2).permitido
            && ReplyTo(k1, c, 60_000, 2).permitido
            && ReplyTo(k2, c, 60_000, 2).permitido
  {
    var c, m := Call(0, 1000), Member(0, 1000);
    var k0 := Key(map[], 0);
    assert Pruned(k0, 0, 60_000) == map[];
    var k1 := After(k0, c, 60_000, 2);
    assert Pruned(k1, 0, 60_000) == map[m := 0];
    var k2 := After(k1, c, 60_000, 2);
    assert Pruned(k2, 0, 60_000) == map[m := 0];
  }

  // ---------------------------------------------------------------- the retry time

  /** The key never holds more than the limit. */
  ghost predicate Full(z: map<Member, int>, limite: int) {
    |z| <= limite
  }

  lemma PrunedFits(k: Key, agora: int, janela: nat)
    ensures |Pruned(k, agora, janela)| <= |k.zset|
  {
    var z := Pruned(k, agora, janela);
    assert z.Keys <= k.zset.Keys;
    SubsetFits(z.Keys, k.zset.Keys);
  }

  lemma {:induction false} SubsetFits(a: set<Member>, b: set<Member>)
    requires a <= b
    ensures |a| <= |b|
    ensures a < b ==> |a| < |b|
  {
    if a != {} {
      var x :| x in a;
      SubsetFits(a - {x}, b - {x});
    }
  }

  lemma StepFits(k: Key, c: Call, janela: nat, limite: nat)
    requires Full(k.zset, limite)
    ensures Full(After(k, c, janela, limite).zset, limite)
  {
    PrunedFits(k, c.agora, janela);
    var z := Pruned(k, c.agora, janela);
    var m := Member(c.agora, c.sufixo);
    assert |z[m := c.agora].Keys| <= |z.Keys| + 1 by {
      assert z[m := c.agora].Keys == z.Keys + {m};
    }
  }

  lemma {:induction false} SizeBounded(run: seq<Sys>, calls: seq<Call>, janela: nat, limite: nat, i: nat)
    requires IsRun(run, calls, janela, limite) && i < |run|
    ensures Full(run[i].key.zset, limite)
  {
    if i > 0 {
      assert StepBy(run[i - 1], run[i], calls[i - 1], janela, limite);
      SizeBounded(run, calls, janela, limite, i - 1);
      StepFits(run[i - 1].key, calls[i - 1], janela, limite);
    }
  }

  /** When the reply of call i sends the client away, it names the first instant it will be accepted. */
  ghost function RetryAt(s: Sys, c: Call, janela: nat, limite: nat): int {
    c.agora + ReplyTo(s.key, c, janela, limite).esperaMs
  }

  ghost predicate Denied(s: Sys, c: Call, janela: nat, limite: nat) {
    !ReplyTo(s.key, c, janela, limite).permitido
  }

  /** What a denial leaves: a full set whose oldest member leaves the window at `volta`. */
  ghost predicate Blocked(s: Sys, janela: nat, limite: nat, volta: int) {
    && |s.key.zset| == limite
    && s.key.zset != map[]
    && Oldest(s.key.zset) + janela == volta
    && volta <= s.key.expira
  }

  lemma DenialBlocks(s: Sys, c: Call, s': Sys, janela: nat, limite: nat)
    requires limite >= 1 && StepBy(s, s', c, janela, limite) && Full(s.key.zset, limite)
    requires Represents(s.key, s.log, s.agora, janela)
    requires Denied(s, c, janela, limite)
    ensures Blocked(s', janela, limite, RetryAt(s, c, janela, limite))
    ensures RetryAt(s, c, janela, limite) > c.agora
  {
    PrunedFits(s.key, c.agora, janela);
    var z := Pruned(s.key, c.agora, janela);
    var m :| m in z && z[m] == Oldest(z);
    assert m in s.log;
  }

  lemma BlockedStays(s: Sys, c: Call, s': Sys, janela: nat, limite: nat, volta: int)
    requires StepBy(s, s', c, janela, limite) && Blocked(s, janela, limite, volta)
    ensures c.agora < volta ==> Denied(s, c, janela, limite) && Blocked(s', janela, limite, volta)
    ensures c.agora >= volta ==> !Denied(s, c, janela, limite)
  {
    var z := Pruned(s.key, c.agora, janela);
    if c.agora < volta {
      assert z == s.key.zset;
    } else {
      var m :| m in s.key.zset && s.key.zset[m] == Oldest(s.key.zset);
      assert m !in z;
      assert z.Keys < s.key.zset.Keys;
      SubsetFits(z.Keys, s.key.zset.Keys);
      assert |z| == |z.Keys|;
    }
  }

  /** The retry time of a denial is exact: every later request before it is denied, and the first
      one at or after it is accepted. */
  lemma {:induction false} RetryIsExact(run: seq<Sys>, calls: seq<Call>, janela: nat, limite: nat, i: nat, j: nat)
    requires limite >= 1 && IsRun(run, calls, janela, limite) && i < j < |calls|
    requires Denied(run[i], calls[i], janela, limite)
    requires forall k :: i < k < j ==> calls[k].agora < RetryAt(run[i], calls[i], janela, limite)
    ensures Blocked(run[j], janela, limite, RetryAt(run[i], calls[i], janela, limite))
    ensures Denied(run[j], calls[j], janela, limite) <==> calls[j].agora < RetryAt(run[i], calls[i], janela, limite)
  {
    var volta := RetryAt(run[i], calls[i], janela, limite);
    assert StepBy(run[j], run[j + 1], calls[j], janela, limite);
    if i + 1 == j {
      assert StepBy(run[i], run[j], calls[i], janela, limite);
      SizeBounded(run, calls, janela, limite, i);
      RunRepresents(run, calls, janela, limite, i);
      DenialBlocks(run[i], calls[i], run[j], janela, limite);
    } else {
      assert StepBy(run[j - 1], run[j], calls[j - 1], janela, limite);
      RetryIsExact(run, calls, janela, limite, i, j - 1);
      BlockedStays(run[j - 1], calls[j - 1], run[j], janela, limite, volta);
    }
    BlockedStays(run[j], calls[j], run[j + 1], janela, limite, volta);
  }

  /** The Retry-After header (section 4 of RFC 6585): whole seconds, at least one. */
  function RetryAfterSeconds(esperaMs: int): int {
    Max(1, (esperaMs + 999) / 1000)
  }

  /** Obeying the header, a client is never back too soon, and waits less than a second too long. */
  lemma HeaderIsTight(run: seq<Sys>, calls: seq<Call>, janela: nat, limite: nat, i: nat)
    requires limite >= 1 && IsRun(run, calls, janela, limite) && i < |calls|
    requires Denied(run[i], calls[i], janela, limite)
    ensures var volta := calls[i].agora + 1000 * RetryAfterSeconds(ReplyTo(run[i].key, calls[i], janela, limite).esperaMs);
            RetryAt(run[i], calls[i], janela, limite) <= volta < RetryAt(run[i], calls[i], janela, limite) + 1000
  {
    assert StepBy(run[i], run[i + 1], calls[i], janela, limite);
    SizeBounded(run, calls, janela, limite, i);
    RunRepresents(run, calls, janela, limite, i);
    DenialBlocks(run[i], calls[i], run[i + 1], janela, limite);
  }

  // ---------------------------------------------------------------- the count and the remaining requests

  /** X-RateLimit-Remaining */
  function Remaining(limite: int, contagem: int): int {
    Max(0, limite - contagem)
  }

  lemma AcceptedCount(s: Sys, s': Sys, c: Call, janela: nat, limite: int)
    requires StepBy(s, s', c, janela, limite) && janela > 0 && ReplyTo(s.key, c, janela, limite).permitido
    requires Represents(s.key, s.log, s.agora, janela) && Distinct(s'.log)
    ensures ReplyTo(s.key, c, janela, limite).contagem == CountIn(s'.log, c.agora - janela, c.agora)
  {
    LogGrows(s, s', c, janela, limite);
    DecidesOne(s, c, janela, limite);
    PrunedIsWindow(s.key, s.log, s.agora, c.agora, janela);
    var z := Pruned(s.key, c.agora, janela);
    assert |z| == |z.Keys|;
    LoggedCounts(s, s', c, janela, limite, c.agora - janela, c.agora);
  }

  lemma DeniedCount(s: Sys, c: Call, janela: nat, limite: nat)
    requires Full(s.key.zset, limite) && !ReplyTo(s.key, c, janela, limite).permitido
    ensures ReplyTo(s.key, c, janela, limite).contagem == limite
  {
    PrunedFits(s.key, c.agora, janela);
  }

  ghost predicate RemainingFits(s: Sys, s': Sys, c: Call, janela: nat, limite: nat) {
    var r := ReplyTo(s.key, c, janela, limite);
    Remaining(limite, r.contagem)
    == if r.permitido then limite - CountIn(s'.log, c.agora - janela, c.agora) else 0
  }

  lemma StepRemaining(s: Sys, s': Sys, c: Call, janela: nat, limite: nat)
    requires StepBy(s, s', c, janela, limite) && janela > 0
    requires Represents(s.key, s.log, s.agora, janela) && Full(s.key.zset, limite)
    ensures Denied(s, c, janela, limite) || Distinct(s'.log) ==> RemainingFits(s, s', c, janela, limite)
  {
    if Denied(s, c, janela, limite) {
      DeniedCount(s, c, janela, limite);
    } else if Distinct(s'.log) {
      AcceptedCount(s, s', c, janela, limite);
    }
  }

  /** The header of a denial says that nothing remains. That of an accepted request says what the
      limit leaves beside the requests accepted in the window that ends with it, itself included,
      as long as their members are distinct. */
  lemma RemainingIsExact(run: seq<Sys>, calls: seq<Call>, janela: nat, limite: nat, i: nat)
    requires IsRun(run, calls, janela, limite) && i < |calls| && janela > 0
    ensures Denied(run[i], calls[i], janela, limite) || Distinct(run[i + 1].log) ==>
              RemainingFits(run[i], run[i + 1], calls[i], janela, limite)
  {
    StateAt(run, calls, janela, limite, i);
    SizeBounded(run, calls, janela, limite, i);
    assert StepBy(run[i], run[i + 1], calls[i], janela, limite);
    StepRemaining(run[i], run[i + 1], calls[i], janela, limite);
  }
}
