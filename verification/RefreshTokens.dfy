/** Refresh tokens grouped in families, kept in Redis with a time to live: the rotation scheme of
    section 10.4 of RFC 6749. One HTTP request is one atomic step; time is in milliseconds.
    A token is identified with its hash; tokens and family ids are fresh when issued. */
module RefreshTokens {

  type Token = nat
  type Family = nat

  datatype Session = Session(usuario: nat, restaurante: nat, familia: Family, usado: bool)

  datatype TokenKey = TokenKey(session: Session, expira: int)

  datatype FamilyKey = FamilyKey(membros: set<Token>, expira: int)

  /** The keys refreshtoken:* and tokenfamily:*. An expired key stays in the map and reads as absent. */
  datatype Store = Store(tokens: map<Token, TokenKey>, familias: map<Family, FamilyKey>)

  /** A consumed token is kept two minutes for detecting its reuse. */
  const RETENCAO_MS := 120_000

  /** The configured lifetime, in whole days. */
  function TtlMs(dias: nat): nat {
    dias * 86_400_000
  }

  predicate Live(s: Store, now: int, t: Token) {
    t in s.tokens && now <= s.tokens[t].expira
  }

  predicate LiveFamily(s: Store, now: int, f: Family) {
    f in s.familias && now <= s.familias[f].expira
  }

  function Members(s: Store, now: int, f: Family): set<Token> {
    if LiveFamily(s, now, f) then s.familias[f].membros else {}
  }

  /** A token handed out for a session of this user and restaurant, good for `dias` days. */
  ghost function Issued(usuario: nat, restaurante: nat, familia: Family, now: int, dias: nat): TokenKey {
    TokenKey(Session(usuario, restaurante, familia, false), now + dias * 86_400_000)
  }

  /** The same session, marked used and kept for two minutes. */
  ghost function Consumed(s: Session, now: int): TokenKey {
    TokenKey(Session(s.usuario, s.restaurante, s.familia, true), now + 120_000)
  }

  // ---------------------------------------------------------------- the three operations

  function Create(s: Store, now: int, t: Token, session: Session, ttl: nat): Store {
    var f := session.familia;
    Store(s.tokens[t := TokenKey(session.(usado := false), now + ttl)],
          s.familias[f := FamilyKey(Members(s, now, f) + {t}, now + ttl)])
  }

  function Invalidate(s: Store, now: int, f: Family): Store {
    Store(s.tokens - Members(s, now, f), s.familias - {f})
  }

  datatype Rotation = Unknown | Reused(familia: Family) | Rotated(session: Session)

  function RotationOf(s: Store, now: int, t: Token): Rotation {
    if !Live(s, now, t) then Unknown
    else if s.tokens[t].session.usado then Reused(s.tokens[t].session.familia)
    else Rotated(s.tokens[t].session)
  }

  function Rotate(s: Store, now: int, t: Token): Store {
    match RotationOf(s, now, t)
    case Unknown => s
    case Reused(f) => Invalidate(s, now, f)
    case Rotated(session) => s.(tokens := s.tokens[t := TokenKey(session.(usado := true), now + RETENCAO_MS)])
  }

  /** The service: each method reads and rewrites Redis keys. */
  class RedisRefreshTokenService {
    const dias: nat
    var tokens: map<Token, TokenKey>
    var familias: map<Family, FamilyKey>

    ghost function Keys(): Store
      reads this
    {
      Store(tokens, familias)
    }

    constructor (dias: nat)
      ensures this.dias == dias && Keys() == Store(map[], map[])
    {
      this.dias, tokens, familias := dias, map[], map[];
    }

    method CreateRefreshToken(now: int, t: Token, session: Session)
      modifies this
      ensures Keys() == Create(old(Keys()), now, t, session, TtlMs(dias))
      ensures tokens == old(tokens)[t := Issued(session.usuario, session.restaurante, session.familia, now, dias)]
      ensures familias.Keys == old(familias).Keys + {session.familia}
      ensures forall f :: f in old(familias) && f != session.familia ==> familias[f] == old(familias)[f]
      ensures t in familias[session.familia].membros && familias[session.familia].expira == now + dias * 86_400_000
    {
      var f, expira := session.familia, now + TtlMs(dias);
      tokens := tokens[t := TokenKey(session.(usado := false), expira)];
      // SADD onto an expired key starts a new set
      var membros := if f in familias && now <= familias[f].expira then familias[f].membros else {};
      familias := familias[f := FamilyKey(membros + {t}, expira)];
    }

    method RotateRefreshToken(now: int, t: Token) returns (r: Rotation)
      modifies this
      ensures r == RotationOf(old(Keys()), now, t)
      ensures Keys() == Rotate(old(Keys()), now, t)
    {
      if t !in tokens || tokens[t].expira < now {
        return Unknown;
      }
      var session := tokens[t].session;
      if session.usado {
        InvalidateFamily(now, session.familia);
        return Reused(session.familia);
      }
      tokens := tokens[t := TokenKey(session.(usado := true), now + RETENCAO_MS)];
      return Rotated(session);
    }

    method InvalidateFamily(now: int, f: Family)
      modifies this
      ensures Keys() == Invalidate(old(Keys()), now, f)
    {
      var hashes := if f in familias && now <= familias[f].expira then familias[f].membros else {};
      ghost var todos := hashes;
      while hashes != {}
        invariant hashes <= todos && familias == old(familias)
        invariant tokens == old(tokens) - (todos - hashes)
      {
        var hash :| hash in hashes;
        tokens := tokens - {hash};
        hashes := hashes - {hash};
      }
      assert todos - hashes == todos;
      familias := familias - {f};
    }

    /** AuthController.Login (and the sign-up of a restaurant): a new family. */
    method Login(now: int, novo: Token, familia: Family, usuario: nat, restaurante: nat)
      modifies this
      ensures Keys() == Perform(old(Keys()), now, dias, Entrar(novo, familia, usuario, restaurante))
      ensures tokens == old(tokens)[novo := Issued(usuario, restaurante, familia, now, dias)]
    {
      CreateRefreshToken(now, novo, Session(usuario, restaurante, familia, false));
    }

    /** AuthController.Refresh: rotate, then issue the family's next token. */
    method Refresh(now: int, apresentado: Token, novo: Token) returns (ok: bool)
      modifies this
      ensures ok <==> RotationOf(old(Keys()), now, apresentado).Rotated?
      ensures Keys() == Perform(old(Keys()), now, dias, Renovar(apresentado, novo))
      ensures ok ==>
                && apresentado in old(tokens) && now <= old(tokens)[apresentado].expira
                && !old(tokens)[apresentado].session.usado
                && var s := old(tokens)[apresentado].session;
                   tokens == old(tokens)[apresentado := Consumed(s, now)]
                                        [novo := Issued(s.usuario, s.restaurante, s.familia, now, dias)]
    {
      var r := RotateRefreshToken(now, apresentado);
      if r.Rotated? {
        CreateRefreshToken(now, novo, r.session);
      }
      ok := r.Rotated?;
    }

    /** AuthController.Logout, when it is given the refresh token. */
    method Logout(now: int, apresentado: Token)
      modifies this
      ensures Keys() == Perform(old(Keys()), now, dias, Sair(apresentado))
      ensures apresentado !in old(tokens) || old(tokens)[apresentado].expira < now ==> Keys() == old(Keys())
      ensures apresentado in old(tokens) && now <= old(tokens)[apresentado].expira ==>
                var f := old(tokens)[apresentado].session.familia;
                f !in familias && forall t :: t in tokens ==> t !in Members(old(Keys()), now, f)
    {
      var r := RotateRefreshToken(now, apresentado);
      match r
      case Unknown =>
      case Reused(f) => InvalidateFamily(now, f);
      case Rotated(session) => InvalidateFamily(now, session.familia);
    }
  }

  // ---------------------------------------------------------------- requests

  datatype Request =
    | Entrar(novo: Token, familia: Family, usuario: nat, restaurante: nat)
    | Renovar(apresentado: Token, novo: Token)
    | Sair(apresentado: Token)

  ghost function Perform(s: Store, now: int, dias: nat, r: Request): Store {
    match r
    case Entrar(novo, familia, usuario, restaurante) =>
      Create(s, now, novo, Session(usuario, restaurante, familia, false), TtlMs(dias))
    case Renovar(t, novo) =>
      (match RotationOf(s, now, t)
       case Rotated(session) => Create(Rotate(s, now, t), now, novo, session, TtlMs(dias))
       case _ => Rotate(s, now, t))
    case Sair(t) =>
      (match RotationOf(s, now, t)
       case Unknown => s
       case Reused(f) => Invalidate(Rotate(s, now, t), now, f)
       case Rotated(session) => Invalidate(Rotate(s, now, t), now, session.familia))
  }

  /** The store with its history: the family of every token ever issued, the successful
      rotations in order, and the families revoked by a reuse or a logout. */
  datatype Sys = Sys(store: Store, now: int, emitidos: map<Token, Family>, rotacoes: seq<Token>, revogadas: set<Family>)

  ghost predicate Fresh(sys: Sys, r: Request) {
    match r
    case Entrar(novo, familia, _, _) => novo !in sys.emitidos && familia !in sys.emitidos.Values
    case Renovar(_, novo) => novo !in sys.emitidos
    case Sair(_) => true
  }

  /** The request kills the family of the token it presents. */
  ghost predicate Revokes(s: Store, now: int, r: Request) {
    match r
    case Entrar(_, _, _, _) => false
    case Renovar(t, _) => RotationOf(s, now, t).Reused?
    case Sair(t) => Live(s, now, t)
  }

  ghost predicate Rotates(s: Store, now: int, r: Request) {
    !r.Entrar? && RotationOf(s, now, r.apresentado).Rotated?
  }

  ghost function Issue(sys: Sys, now: int, r: Request): map<Token, Family> {
    match r
    case Entrar(novo, familia, _, _) => sys.emitidos[novo := familia]
    case Renovar(t, novo) =>
      if Rotates(sys.store, now, r) then sys.emitidos[novo := sys.store.tokens[t].session.familia] else sys.emitidos
    case Sair(_) => sys.emitidos
  }

  ghost function Step(sys: Sys, now: int, dias: nat, r: Request): Sys {
    Sys(Perform(sys.store, now, dias, r),
        now,
        Issue(sys, now, r),
        if Rotates(sys.store, now, r) then sys.rotacoes + [r.apresentado] else sys.rotacoes,
        if Revokes(sys.store, now, r)
        then sys.revogadas + {sys.store.tokens[r.apresentado].session.familia} else sys.revogadas)
  }

  // ---------------------------------------------------------------- the invariant

  ghost predicate Unused(s: Store, now: int, t: Token) {
    Live(s, now, t) && !s.tokens[t].session.usado
  }

  /** A live token was issued in its family, is in its family's set, and the set outlives it. */
  ghost predicate Tracked(sys: Sys, now: int, t: Token) {
    Live(sys.store, now, t) ==>
      && t in sys.emitidos
      && sys.emitidos[t] == sys.store.tokens[t].session.familia
      && sys.emitidos[t] in sys.store.familias
      && t in sys.store.familias[sys.emitidos[t]].membros
      && sys.store.tokens[t].expira <= sys.store.familias[sys.emitidos[t]].expira
      && sys.emitidos[t] !in sys.revogadas
  }

  ghost predicate OneUnused(sys: Sys, now: int) {
    forall t, u |
      Unused(sys.store, now, t) && Unused(sys.store, now, u)
      && sys.store.tokens[t].session.familia == sys.store.tokens[u].session.familia ::
      t == u
  }

  ghost predicate RotatedOnce(sys: Sys) {
    && (forall i, j :: 0 <= i < j < |sys.rotacoes| ==> sys.rotacoes[i] != sys.rotacoes[j])
    && (forall t :: t in sys.rotacoes ==>
          t in sys.emitidos && (t in sys.store.tokens ==> sys.store.tokens[t].session.usado))
  }

  /** No family set was given more than one lifetime from now. */
  ghost predicate FamiliesCurrent(sys: Sys, dias: nat) {
    forall f :: f in sys.store.familias ==> sys.store.familias[f].expira <= sys.now + TtlMs(dias)
  }

  ghost predicate MembersOwn(sys: Sys) {
    forall f, t :: f in sys.store.familias && t in sys.store.familias[f].membros ==>
      t in sys.emitidos && sys.emitidos[t] == f
  }

  ghost predicate Inv(sys: Sys, dias: nat) {
    && MembersOwn(sys)
    && FamiliesCurrent(sys, dias)
    && (forall t :: t in sys.store.tokens ==> t in sys.emitidos)
    && (forall t :: t in sys.store.tokens ==> Tracked(sys, sys.now, t))
    && OneUnused(sys, sys.now)
    && RotatedOnce(sys)
    && sys.revogadas <= sys.emitidos.Values
  }

  /** Waiting keeps the invariant: keys only expire. */
  lemma WaitKeepsInv(sys: Sys, dias: nat, now: int)
    requires Inv(sys, dias) && sys.now <= now
    ensures Inv(sys.(now := now), dias)
  {
    forall t | t in sys.store.tokens ensures Tracked(sys.(now := now), now, t) {
      assert Tracked(sys, sys.now, t);
    }
    forall t, u | Unused(sys.store, now, t) && Unused(sys.store, now, u)
                  && sys.store.tokens[t].session.familia == sys.store.tokens[u].session.familia
      ensures t == u
    {
      assert Unused(sys.store, sys.now, t) && Unused(sys.store, sys.now, u);
    }
  }

  lemma LoginKeepsInv(sys: Sys, dias: nat, r: Request)
    requires Inv(sys, dias) && Fresh(sys, r) && r.Entrar?
    ensures Inv(Step(sys, sys.now, dias, r), dias)
  {
    var sys' := Step(sys, sys.now, dias, r);
    assert r.novo in sys'.emitidos && sys'.emitidos[r.novo] == r.familia;
    forall t | t in sys'.store.tokens ensures Tracked(sys', sys.now, t) {
      if t != r.novo {
        assert Tracked(sys, sys.now, t);
      }
    }
    forall t | t in sys.emitidos ensures sys.emitidos[t] != r.familia {
      assert sys.emitidos[t] in sys.emitidos.Values;
    }
    forall t, u | Unused(sys'.store, sys.now, t) && Unused(sys'.store, sys.now, u)
                  && sys'.store.tokens[t].session.familia == sys'.store.tokens[u].session.familia
      ensures t == u
    {
      assert t != r.novo ==> Tracked(sys, sys.now, t) && Unused(sys.store, sys.now, t);
      assert u != r.novo ==> Tracked(sys, sys.now, u) && Unused(sys.store, sys.now, u);
    }
    ValuesGrow(sys.emitidos, r.novo, r.familia);
  }

  lemma ValuesGrow(m: map<Token, Family>, t: Token, f: Family)
    requires t !in m
    ensures m.Values <= m[t := f].Values
  {
    forall v | v in m.Values ensures v in m[t := f].Values {
      var k :| k in m && m[k] == v;
      assert k in m[t := f] && m[t := f][k] == v;
    }
  }

  /** Revoking a family deletes every live token of it. */
  lemma InvalidateRemovesAll(sys: Sys, dias: nat, f: Family)
    requires Inv(sys, dias)
    ensures forall t :: Live(Invalidate(sys.store, sys.now, f), sys.now, t) ==>
              Live(sys.store, sys.now, t) && sys.store.tokens[t].session.familia != f
  {
    forall t | Live(Invalidate(sys.store, sys.now, f), sys.now, t) ensures sys.store.tokens[t].session.familia != f {
      assert Tracked(sys, sys.now, t);
    }
  }

  lemma RevokeKeepsInv(sys: Sys, dias: nat, f: Family)
    requires Inv(sys, dias) && f in sys.emitidos.Values
    ensures Inv(sys.(store := Invalidate(sys.store, sys.now, f), revogadas := sys.revogadas + {f}), dias)
  {
    var sys' := sys.(store := Invalidate(sys.store, sys.now, f), revogadas := sys.revogadas + {f});
    InvalidateRemovesAll(sys, dias, f);
    forall t | t in sys'.store.tokens ensures Tracked(sys', sys.now, t) {
      assert Tracked(sys, sys.now, t);
    }
    forall t, u | Unused(sys'.store, sys.now, t) && Unused(sys'.store, sys.now, u)
                  && sys'.store.tokens[t].session.familia == sys'.store.tokens[u].session.familia
      ensures t == u
    {
      assert Unused(sys.store, sys.now, t) && Unused(sys.store, sys.now, u);
    }
  }

  lemma RefreshKeepsInv(sys: Sys, dias: nat, r: Request)
    requires Inv(sys, dias) && Fresh(sys, r) && r.Renovar? && Rotates(sys.store, sys.now, r) && dias >= 1
    ensures Inv(Step(sys, sys.now, dias, r), dias)
  {
    var sys' := Step(sys, sys.now, dias, r);
    var f := sys.store.tokens[r.apresentado].session.familia;
    assert Tracked(sys, sys.now, r.apresentado);
    ValuesGrow(sys.emitidos, r.novo, f);
    forall t | t in sys'.store.tokens ensures Tracked(sys', sys.now, t) {
      if t != r.novo {
        assert Tracked(sys, sys.now, t);
      }
    }
    forall t, u | Unused(sys'.store, sys.now, t) && Unused(sys'.store, sys.now, u)
                  && sys'.store.tokens[t].session.familia == sys'.store.tokens[u].session.familia
      ensures t == u
    {
      assert t != r.novo ==> t != r.apresentado && Unused(sys.store, sys.now, t);
      assert u != r.novo ==> u != r.apresentado && Unused(sys.store, sys.now, u);
      assert Unused(sys.store, sys.now, r.apresentado);
    }
  }

  lemma StepKeepsInv(sys: Sys, now: int, dias: nat, r: Request)
    requires Inv(sys, dias) && sys.now <= now && Fresh(sys, r) && dias >= 1
    ensures Inv(Step(sys, now, dias, r), dias)
  {
    var at := sys.(now := now);
    WaitKeepsInv(sys, dias, now);
    match r
    case Entrar(_, _, _, _) => LoginKeepsInv(at, dias, r);
    case Renovar(t, _) =>
      if Live(at.store, now, t) {
        assert Tracked(at, now, t);
        if at.store.tokens[t].session.usado {
          RevokeKeepsInv(at, dias, at.store.tokens[t].session.familia);
        } else {
          RefreshKeepsInv(at, dias, r);
        }
      }
    case Sair(t) =>
      LogoutKeepsInv(at, dias, t);
  }

  lemma LogoutKeepsInv(sys: Sys, dias: nat, t: Token)
    requires Inv(sys, dias)
    ensures Inv(Step(sys, sys.now, dias, Sair(t)), dias)
  {
    if Live(sys.store, sys.now, t) {
      assert Tracked(sys, sys.now, t);
      var f := sys.store.tokens[t].session.familia;
      RevokeKeepsInv(sys, dias, f);
      var done := sys.(store := Invalidate(sys.store, sys.now, f), revogadas := sys.revogadas + {f});
      var sys' := Step(sys, sys.now, dias, Sair(t));
      assert t in Members(sys.store, sys.now, f);
      assert sys'.store.familias == done.store.familias;
      assert sys'.store.tokens == done.store.tokens;
    }
  }

  // ---------------------------------------------------------------- whole runs

  datatype Event = Event(now: int, request: Request)

  ghost predicate IsRun(dias: nat, run: seq<Sys>, events: seq<Event>) {
    && dias >= 1
    && |run| == |events| + 1
    && run[0].store == Store(map[], map[]) && run[0].emitidos == map[] && run[0].rotacoes == [] && run[0].revogadas == {}
    && forall i :: 0 <= i < |events| ==> StepBy(dias, run[i], run[i + 1], events[i])
  }

  /** Clocks do not go back, ids are fresh. */
  ghost predicate StepBy(dias: nat, sys: Sys, sys': Sys, e: Event) {
    sys.now <= e.now && Fresh(sys, e.request) && sys' == Step(sys, e.now, dias, e.request)
  }

  lemma {:induction false} RunKeepsInv(dias: nat, run: seq<Sys>, events: seq<Event>, i: nat)
    requires IsRun(dias, run, events) && i < |run|
    ensures Inv(run[i], dias)
  {
    if i > 0 {
      RunKeepsInv(dias, run, events, i - 1);
      assert StepBy(dias, run[i - 1], run[i], events[i - 1]);
      StepKeepsInv(run[i - 1], events[i - 1].now, dias, events[i - 1].request);
    }
  }

  /** At every request boundary: a live token is in its family's set and does not outlive it, and
      a family has at most one unused live token. */
  lemma TokensAreTracked(dias: nat, run: seq<Sys>, events: seq<Event>, i: nat, t: Token, u: Token)
    requires IsRun(dias, run, events) && i < |run|
    requires Live(run[i].store, run[i].now, t)
    ensures var f := run[i].store.tokens[t].session.familia;
            && LiveFamily(run[i].store, run[i].now, f)
            && t in Members(run[i].store, run[i].now, f)
            && run[i].store.tokens[t].expira <= run[i].store.familias[f].expira
    ensures (Unused(run[i].store, run[i].now, t) && Unused(run[i].store, run[i].now, u)
             && run[i].store.tokens[t].session.familia == run[i].store.tokens[u].session.familia) ==> t == u
  {
    RunKeepsInv(dias, run, events, i);
    assert Tracked(run[i], run[i].now, t);
  }

  /** A token rotates successfully at most once over the whole run, and only if it was issued. */
  lemma RotatesAtMostOnce(dias: nat, run: seq<Sys>, events: seq<Event>, i: nat, j: nat, t: Token)
    requires IsRun(dias, run, events) && i < j < |events|
    requires Rotates(run[i].store, events[i].now, events[i].request) && events[i].request.apresentado == t
    ensures !(Rotates(run[j].store, events[j].now, events[j].request) && events[j].request.apresentado == t)
  {
    assert StepBy(dias, run[i], run[i + 1], events[i]);
    HistoryGrows(dias, run, events, i + 1, j);
    RunKeepsInv(dias, run, events, j);
    assert t in run[i + 1].rotacoes;
  }

  lemma {:induction false} HistoryGrows(dias: nat, run: seq<Sys>, events: seq<Event>, i: nat, j: nat)
    requires IsRun(dias, run, events) && i <= j < |run|
    ensures run[i].rotacoes <= run[j].rotacoes
    ensures run[i].revogadas <= run[j].revogadas
    ensures forall t :: t in run[i].emitidos ==> t in run[j].emitidos && run[j].emitidos[t] == run[i].emitidos[t]
  {
    if i < j {
      HistoryGrows(dias, run, events, i, j - 1);
      assert StepBy(dias, run[j - 1], run[j], events[j - 1]);
    }
  }

  /** Once a consumed token is presented while still stored, or a stored token at logout, no
      token of its family, issued before or after, ever rotates again. */
  lemma RevokedForGood(dias: nat, run: seq<Sys>, events: seq<Event>, i: nat, j: nat)
    requires IsRun(dias, run, events) && i < j < |events|
    requires Revokes(run[i].store, events[i].now, events[i].request)
    ensures !events[j].request.Entrar? ==>
              match RotationOf(run[j].store, events[j].now, events[j].request.apresentado)
              case Rotated(session) => session.familia != run[i].store.tokens[events[i].request.apresentado].session.familia
              case Reused(f) => f != run[i].store.tokens[events[i].request.apresentado].session.familia
              case Unknown => true
  {
    assert StepBy(dias, run[i], run[i + 1], events[i]);
    HistoryGrows(dias, run, events, i + 1, j);
    RunKeepsInv(dias, run, events, j);
    assert StepBy(dias, run[j], run[j + 1], events[j]);
    if !events[j].request.Entrar? && Live(run[j].store, events[j].now, events[j].request.apresentado) {
      assert Tracked(run[j], run[j].now, events[j].request.apresentado);
    }
  }

  // ---------------------------------------------------------------- sessions do not disturb each other

  /** The request concerns another session than t's. */
  ghost predicate Elsewhere(sys: Sys, r: Request, t: Token)
    requires t in sys.emitidos
  {
    r.Entrar? || (r.apresentado in sys.emitidos ==> sys.emitidos[r.apresentado] != sys.emitidos[t])
  }

  /** A live token is untouched by every request that presents no token of its family, so it
      still rotates when it is presented before it expires. */
  lemma StepIsolates(dias: nat, sys: Sys, sys': Sys, e: Event, t: Token)
    requires Inv(sys, dias) && StepBy(dias, sys, sys', e) && dias >= 1
    requires t in sys.emitidos && Live(sys.store, e.now, t) && Elsewhere(sys, e.request, t)
    ensures Live(sys'.store, e.now, t) && sys'.store.tokens[t] == sys.store.tokens[t]
  {
    assert Tracked(sys, sys.now, t);
    if !e.request.Entrar? && Live(sys.store, e.now, e.request.apresentado) {
      assert Tracked(sys, sys.now, e.request.apresentado);
      MembersAreOwn(sys, dias, e.now, sys.emitidos[e.request.apresentado], t);
    }
  }

  lemma MembersAreOwn(sys: Sys, dias: nat, now: int, f: Family, t: Token)
    requires Inv(sys, dias) && t in sys.emitidos && sys.emitidos[t] != f
    ensures t !in Members(sys.store, now, f)
  {
  }

  ghost predicate Undisturbed(sys: Sys, r: Request, t: Token) {
    t in sys.emitidos && Elsewhere(sys, r, t)
  }

  lemma {:induction false} UnchangedUntil(dias: nat, run: seq<Sys>, events: seq<Event>, i: nat, j: nat, t: Token)
    requires IsRun(dias, run, events) && i <= j < |run|
    requires t in run[i].emitidos && Unused(run[i].store, run[i].now, t)
    requires run[j].now <= run[i].store.tokens[t].expira
    requires forall k :: i <= k < j ==> Undisturbed(run[k], events[k].request, t)
    ensures t in run[j].store.tokens && run[j].store.tokens[t] == run[i].store.tokens[t]
  {
    if i < j {
      assert StepBy(dias, run[j - 1], run[j], events[j - 1]);
      UnchangedUntil(dias, run, events, i, j - 1, t);
      RunKeepsInv(dias, run, events, j - 1);
      assert Undisturbed(run[j - 1], events[j - 1].request, t);
      StepIsolates(dias, run[j - 1], run[j], events[j - 1], t);
    }
  }

  /** An unused token survives whatever other sessions do, and rotates if presented in time. */
  lemma UnusedSurvives(dias: nat, run: seq<Sys>, events: seq<Event>, i: nat, j: nat, t: Token)
    requires IsRun(dias, run, events) && i <= j < |events|
    requires t in run[i].emitidos && Unused(run[i].store, run[i].now, t)
    requires events[j].now <= run[i].store.tokens[t].expira
    requires forall k :: i <= k < j ==> Undisturbed(run[k], events[k].request, t)
    ensures RotationOf(run[j].store, events[j].now, t) == Rotated(run[i].store.tokens[t].session)
  {
    assert StepBy(dias, run[j], run[j + 1], events[j]);
    UnchangedUntil(dias, run, events, i, j, t);
  }

  // ---------------------------------------------------------------- whose session, and for how long

  /** Every token kept, alive or not, carries the family it was issued in. */
  ghost predicate FamiliesTrue(sys: Sys) {
    forall t :: t in sys.store.tokens ==>
      t in sys.emitidos && sys.store.tokens[t].session.familia == sys.emitidos[t]
  }

  /** Every token of the family is this user's, in this restaurant. */
  ghost predicate Owned(sys: Sys, f: Family, usuario: nat, restaurante: nat) {
    && f in sys.emitidos.Values
    && forall t :: t in sys.store.tokens && sys.store.tokens[t].session.familia == f ==>
         sys.store.tokens[t].session.usuario == usuario && sys.store.tokens[t].session.restaurante == restaurante
  }

  lemma StepKeepsFamilies(dias: nat, sys: Sys, sys': Sys, e: Event)
    requires StepBy(dias, sys, sys', e) && FamiliesTrue(sys)
    ensures FamiliesTrue(sys')
  {
  }

  lemma ValuesKept(sys: Sys, now: int, r: Request, f: Family)
    requires Fresh(sys, r) && f in sys.emitidos.Values
    ensures f in Issue(sys, now, r).Values
  {
    var t :| t in sys.emitidos && sys.emitidos[t] == f;
    assert t in Issue(sys, now, r) && Issue(sys, now, r)[t] == f;
  }

  lemma StepKeepsOwner(dias: nat, sys: Sys, sys': Sys, e: Event, f: Family, usuario: nat, restaurante: nat)
    requires StepBy(dias, sys, sys', e) && Owned(sys, f, usuario, restaurante)
    ensures Owned(sys', f, usuario, restaurante)
  {
    ValuesKept(sys, e.now, e.request, f);
  }

  lemma LoginOwns(dias: nat, sys: Sys, sys': Sys, e: Event)
    requires StepBy(dias, sys, sys', e) && FamiliesTrue(sys) && e.request.Entrar?
    ensures Owned(sys', e.request.familia, e.request.usuario, e.request.restaurante)
  {
    var f := e.request.familia;
    assert sys'.emitidos[e.request.novo] == f;
    forall t | t in sys.store.tokens ensures sys.store.tokens[t].session.familia != f {
      assert sys.emitidos[t] in sys.emitidos.Values;
    }
  }

  lemma {:induction false} RunKeepsFamilies(dias: nat, run: seq<Sys>, events: seq<Event>, i: nat)
    requires IsRun(dias, run, events) && i < |run|
    ensures FamiliesTrue(run[i])
  {
    if i > 0 {
      RunKeepsFamilies(dias, run, events, i - 1);
      assert StepBy(dias, run[i - 1], run[i], events[i - 1]);
      StepKeepsFamilies(dias, run[i - 1], run[i], events[i - 1]);
    }
  }

  lemma {:induction false} OwnedAfter(dias: nat, run: seq<Sys>, events: seq<Event>, i: nat, j: nat)
    requires IsRun(dias, run, events) && i < j < |run| && events[i].request.Entrar?
    ensures Owned(run[j], events[i].request.familia, events[i].request.usuario, events[i].request.restaurante)
  {
    var r := events[i].request;
    assert StepBy(dias, run[j - 1], run[j], events[j - 1]);
    if i == j - 1 {
      RunKeepsFamilies(dias, run, events, i);
      LoginOwns(dias, run[i], run[j], events[i]);
    } else {
      OwnedAfter(dias, run, events, i, j - 1);
      StepKeepsOwner(dias, run[j - 1], run[j], events[j - 1], r.familia, r.usuario, r.restaurante);
    }
  }

  ghost predicate LoggedIn(events: seq<Event>, n: nat, f: Family)
    requires n <= |events|
  {
    exists i :: 0 <= i < n && events[i].request.Entrar? && events[i].request.familia == f
  }

  ghost predicate AllLoggedIn(events: seq<Event>, n: nat, sys: Sys)
    requires n <= |events|
  {
    forall t :: t in sys.store.tokens ==> LoggedIn(events, n, sys.store.tokens[t].session.familia)
  }

  lemma {:induction false} SessionsLoggedIn(dias: nat, run: seq<Sys>, events: seq<Event>, j: nat)
    requires IsRun(dias, run, events) && j < |run|
    ensures AllLoggedIn(events, j, run[j])
  {
    if j > 0 {
      SessionsLoggedIn(dias, run, events, j - 1);
      assert StepBy(dias, run[j - 1], run[j], events[j - 1]);
      forall t | t in run[j].store.tokens ensures LoggedIn(events, j, run[j].store.tokens[t].session.familia) {
        var f := run[j].store.tokens[t].session.familia;
        if LoggedIn(events, j - 1, f) {
          var i :| 0 <= i < j - 1 && events[i].request.Entrar? && events[i].request.familia == f;
          assert events[i].request.familia == f;
        } else {
          assert events[j - 1].request.familia == f;
        }
      }
    }
  }

  /** However often it is renewed, a session stays that of the user and the restaurant that logged in. */
  lemma SessionKeepsItsOwner(dias: nat, run: seq<Sys>, events: seq<Event>, i: nat, j: nat, s: Session)
    requires IsRun(dias, run, events) && i < j < |events|
    requires events[i].request.Entrar? && !events[j].request.Entrar?
    requires RotationOf(run[j].store, events[j].now, events[j].request.apresentado) == Rotated(s)
    requires s.familia == events[i].request.familia
    ensures s.usuario == events[i].request.usuario && s.restaurante == events[i].request.restaurante
  {
    OwnedAfter(dias, run, events, i, j);
  }

  /** And no token rotates but in a session that some login opened. */
  lemma RotatedWasLoggedIn(dias: nat, run: seq<Sys>, events: seq<Event>, j: nat, s: Session)
    requires IsRun(dias, run, events) && j < |events| && !events[j].request.Entrar?
    requires RotationOf(run[j].store, events[j].now, events[j].request.apresentado) == Rotated(s)
    ensures exists i :: 0 <= i < j && events[i].request.Entrar?
                        && Session(events[i].request.usuario, events[i].request.restaurante,
                                   events[i].request.familia, false) == s
  {
    SessionsLoggedIn(dias, run, events, j);
    assert LoggedIn(events, j, s.familia);
    var i :| 0 <= i < j && events[i].request.Entrar? && events[i].request.familia == s.familia;
    SessionKeepsItsOwner(dias, run, events, i, j, s);
    assert events[i].request.Entrar?;
  }

  /** The key of the token is still as it was, or deleted. */
  ghost predicate KeptOrGone(antes: Store, depois: Store, t: Token) {
    t in depois.tokens ==> t in antes.tokens && depois.tokens[t] == antes.tokens[t]
  }

  lemma StepKeepsKey(dias: nat, sys: Sys, sys': Sys, e: Event, t: Token)
    requires FamiliesTrue(sys) && StepBy(dias, sys, sys', e) && Undisturbed(sys, e.request, t)
    ensures KeptOrGone(sys.store, sys'.store, t)
  {
  }

  lemma KeyNext(dias: nat, run: seq<Sys>, events: seq<Event>, j: nat, t: Token)
    requires IsRun(dias, run, events) && j < |events| && Undisturbed(run[j], events[j].request, t)
    ensures KeptOrGone(run[j].store, run[j + 1].store, t)
  {
    assert StepBy(dias, run[j], run[j + 1], events[j]);
    RunKeepsFamilies(dias, run, events, j);
    StepKeepsKey(dias, run[j], run[j + 1], events[j], t);
  }

  /** As long as nobody presents a token of its family. */
  lemma {:induction false} KeyKept(dias: nat, run: seq<Sys>, events: seq<Event>, i: nat, j: nat, t: Token)
    requires IsRun(dias, run, events) && i <= j < |run|
    requires forall k :: i <= k < j ==> Undisturbed(run[k], events[k].request, t)
    ensures KeptOrGone(run[i].store, run[j].store, t)
  {
    if i < j {
      KeyKept(dias, run, events, i, j - 1, t);
      assert Undisturbed(run[j - 1], events[j - 1].request, t);
      KeyNext(dias, run, events, j - 1, t);
    }
  }

  /** An issued token rotates into its own session exactly until its lifetime is over. */
  lemma IssuedLasts(dias: nat, run: seq<Sys>, events: seq<Event>, i: nat, j: nat, t: Token,
                    usuario: nat, restaurante: nat, f: Family)
    requires IsRun(dias, run, events) && i < j < |events|
    requires t in run[i + 1].emitidos && t in run[i + 1].store.tokens && run[i + 1].now == events[i].now
    requires run[i + 1].store.tokens[t] == Issued(usuario, restaurante, f, events[i].now, dias)
    requires forall k :: i < k < j ==> Undisturbed(run[k], events[k].request, t)
    ensures RotationOf(run[j].store, events[j].now, t)
            == if events[j].now <= events[i].now + dias * 86_400_000
               then Rotated(Session(usuario, restaurante, f, false)) else Unknown
  {
    if events[j].now <= events[i].now + dias * 86_400_000 {
      UnusedSurvives(dias, run, events, i + 1, j, t);
    } else {
      KeyKept(dias, run, events, i + 1, j, t);
    }
  }

  /** The token of a login rotates, if its session is left alone until then, exactly within the
      configured number of days, and into a session of the user and restaurant that logged in. */
  lemma LoginLasts(dias: nat, run: seq<Sys>, events: seq<Event>, i: nat, j: nat)
    requires IsRun(dias, run, events) && i < j < |events| && events[i].request.Entrar?
    requires forall k :: i < k < j ==> Undisturbed(run[k], events[k].request, events[i].request.novo)
    ensures var r := events[i].request;
            RotationOf(run[j].store, events[j].now, r.novo)
            == if events[j].now <= events[i].now + dias * 86_400_000
               then Rotated(Session(r.usuario, r.restaurante, r.familia, false)) else Unknown
  {
    var r := events[i].request;
    assert StepBy(dias, run[i], run[i + 1], events[i]);
    IssuedLasts(dias, run, events, i, j, r.novo, r.usuario, r.restaurante, r.familia);
  }

  /** So does the token that a renewal hands out, for the session it renewed. */
  lemma RenewalLasts(dias: nat, run: seq<Sys>, events: seq<Event>, i: nat, j: nat, s: Session)
    requires IsRun(dias, run, events) && i < j < |events| && events[i].request.Renovar?
    requires RotationOf(run[i].store, events[i].now, events[i].request.apresentado) == Rotated(s)
    requires forall k :: i < k < j ==> Undisturbed(run[k], events[k].request, events[i].request.novo)
    ensures RotationOf(run[j].store, events[j].now, events[i].request.novo)
            == if events[j].now <= events[i].now + dias * 86_400_000
               then Rotated(Session(s.usuario, s.restaurante, s.familia, false)) else Unknown
  {
    var r := events[i].request;
    assert StepBy(dias, run[i], run[i + 1], events[i]);
    IssuedLasts(dias, run, events, i, j, r.novo, s.usuario, s.restaurante, s.familia);
  }

  // ---------------------------------------------------------------- what a consumed token still does

  /** The key a rotation at `now` leaves behind. */
  ghost predicate ConsumedAt(sys: Sys, t: Token, now: int) {
    && t in sys.emitidos
    && (sys.emitidos[t] in sys.revogadas
        || (t in sys.store.tokens && sys.store.tokens[t].session.usado && sys.store.tokens[t].expira == now + RETENCAO_MS))
  }

  lemma RotationConsumes(dias: nat, sys: Sys, sys': Sys, e: Event)
    requires Inv(sys, dias) && StepBy(dias, sys, sys', e)
    requires Rotates(sys.store, e.now, e.request)
    ensures ConsumedAt(sys', e.request.apresentado, e.now)
  {
    assert Tracked(sys, sys.now, e.request.apresentado);
  }

  lemma StepKeepsConsumed(dias: nat, sys: Sys, sys': Sys, e: Event, t: Token, when: int)
    requires Inv(sys, dias) && StepBy(dias, sys, sys', e) && ConsumedAt(sys, t, when)
    ensures ConsumedAt(sys', t, when)
  {
    if sys.emitidos[t] !in sys.revogadas && !e.request.Entrar? && Live(sys.store, e.now, e.request.apresentado) {
      assert Tracked(sys, sys.now, e.request.apresentado);
      var f := sys.emitidos[e.request.apresentado];
      if f != sys.emitidos[t] {
        MembersAreOwn(sys, dias, e.now, f, t);
      }
    }
  }

  lemma {:induction false} StaysConsumed(dias: nat, run: seq<Sys>, events: seq<Event>, i: nat, j: nat)
    requires IsRun(dias, run, events) && i < j < |run|
    requires Rotates(run[i].store, events[i].now, events[i].request)
    ensures ConsumedAt(run[j], events[i].request.apresentado, events[i].now)
  {
    assert StepBy(dias, run[j - 1], run[j], events[j - 1]);
    RunKeepsInv(dias, run, events, j - 1);
    if i == j - 1 {
      RotationConsumes(dias, run[i], run[j], events[i]);
    } else {
      StaysConsumed(dias, run, events, i, j - 1);
      StepKeepsConsumed(dias, run[j - 1], run[j], events[j - 1], events[i].request.apresentado, events[i].now);
    }
  }

  /** Presenting a consumed token again is seen as reuse exactly when it comes within two minutes
      of the rotation and the family still stands; later it is merely unknown and revokes nothing. */
  lemma ReuseSeenIff(dias: nat, run: seq<Sys>, events: seq<Event>, i: nat, j: nat)
    requires IsRun(dias, run, events) && i < j < |events|
    requires Rotates(run[i].store, events[i].now, events[i].request)
    requires !events[j].request.Entrar? && events[j].request.apresentado == events[i].request.apresentado
    ensures events[i].request.apresentado in run[j].emitidos
    ensures RotationOf(run[j].store, events[j].now, events[j].request.apresentado).Reused? <==>
              events[j].now <= events[i].now + 120_000
              && run[j].emitidos[events[i].request.apresentado] !in run[j].revogadas
    ensures Revokes(run[j].store, events[j].now, events[j].request) <==>
              RotationOf(run[j].store, events[j].now, events[j].request.apresentado).Reused?
  {
    var t := events[i].request.apresentado;
    assert StepBy(dias, run[j], run[j + 1], events[j]);
    StaysConsumed(dias, run, events, i, j);
    RunKeepsInv(dias, run, events, j);
    if Live(run[j].store, events[j].now, t) {
      assert Tracked(run[j], run[j].now, t);
    }
  }
}
