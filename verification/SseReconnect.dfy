/** The connection side of the SSE client: connect, disconnect, the streams in flight, the
    reconnect timer and the heartbeat watchdog, under any interleaving of what the caller, the
    network and the timers do. Timer and stream ids are fresh. */
module SseReconnect {
  import opened Wrappers

  /** Whether the token is the simulation's, for which no stream is opened. */
  datatype Opcoes = Opcoes(mock: bool)

  datatype Status = Desconectado | Conectando | Reconectando | Conectado

  /** A pending timer; a reconnection remembers the attempt it was scheduled for. */
  datatype Timer = Reconexao(tentativa: nat, atraso: int) | Vigia

  /** A stream in flight: awaiting its response or reading its body, aborted or not. */
  datatype Fluxo = Fluxo(lendo: bool, abortado: bool)

  /** The client's fields, with the timers and streams it left running. */
  datatype Cliente = Cliente(
    manual: bool, tentativa: nat, opcoes: Option<Opcoes>, status: Status,
    reconexao: Option<nat>, vigia: Option<nat>, controle: Option<nat>,
    timers: map<nat, Timer>, fluxos: map<nat, Fluxo>, proximo: nat)

  // ---------------------------------------------------------------- back-off

  function Pow2(n: nat): (p: nat)
    ensures p > n
  {
    if n == 0 then 1 else 2 * Pow2(n - 1)
  }

  /** Math.min(1000 * Math.pow(2, n - 1), 30000), for the n-th attempt in a row. */
  function Base(n: nat): int
    requires n > 0
  {
    if 1000 * Pow2(n - 1) < 30000 then 1000 * Pow2(n - 1) else 30000
  }

  /** Math.round of the base plus up to a second; `sorteio` is Math.random(). */
  function Atraso(n: nat, sorteio: real): int
    requires n > 0
  {
    (Base(n) as real + sorteio * 1000.0 + 0.5).Floor
  }

  lemma {:induction false} Pow2Monotone(m: nat, n: nat)
    requires m <= n
    ensures Pow2(m) <= Pow2(n)
  {
    if m < n {
      Pow2Monotone(m, n - 1);
    }
  }

  /** Later attempts never wait less, apart from the jitter; the wait doubles until the sixth
      attempt, from which it stays at thirty seconds. */
  lemma BaseGrows(m: nat, n: nat)
    requires 0 < m <= n
    ensures 1000 <= Base(m) <= Base(n) <= 30000
    ensures Base(1) == 1000 && (n <= 4 ==> Base(n + 1) == 2 * Base(n))
    ensures Base(n) == 30000 <==> n >= 6
  {
    Pow2Monotone(m - 1, n - 1);
    assert Pow2(4) == 16 && Pow2(5) == 32;
    if n >= 6 {
      Pow2Monotone(5, n - 1);
    } else {
      Pow2Monotone(n - 1, 4);
    }
  }

  lemma DelayWithin(n: nat, sorteio: real)
    requires n > 0 && 0.0 <= sorteio < 1.0
    ensures Base(n) <= Atraso(n, sorteio) <= Base(n) + 1000
    ensures 1000 <= Atraso(n, sorteio) <= 31000
    ensures -0.5 < Atraso(n, sorteio) as real - (Base(n) as real + 1000.0 * sorteio) <= 0.5
  {
    BaseGrows(n, n);
  }

  // ---------------------------------------------------------------- what each method does

  function Cancelado(timers: map<nat, Timer>, id: Option<nat>): map<nat, Timer> {
    if id.Some? then timers - {id.value} else timers
  }

  /** clearTimers */
  function SemTimers(s: Cliente): Cliente {
    s.(timers := Cancelado(Cancelado(s.timers, s.reconexao), s.vigia), reconexao := None, vigia := None)
  }

  /** resetHeartbeatWatchdog */
  function ComVigia(s: Cliente): Cliente {
    s.(timers := Cancelado(s.timers, s.vigia)[s.proximo := Vigia], vigia := Some(s.proximo), proximo := s.proximo + 1)
  }

  /** abortController.abort(): only the latest stream has a controller left to abort it with. */
  function Abortado(s: Cliente): Cliente {
    if s.controle.Some? && s.controle.value in s.fluxos then
      s.(fluxos := s.fluxos[s.controle.value := s.fluxos[s.controle.value].(abortado := true)])
    else s
  }

  /** startStreaming, up to the request. */
  function Iniciado(s: Cliente): Cliente {
    if s.opcoes.None? || s.manual then s
    else if s.opcoes.value.mock then s.(status := Desconectado)
    else
      var t := SemTimers(s);
      t.(status := if s.tentativa == 0 then Conectando else Reconectando,
         controle := Some(s.proximo), fluxos := s.fluxos[s.proximo := Fluxo(false, false)], proximo := s.proximo + 1)
  }

  /** scheduleReconnect */
  function Agendado(s: Cliente, sorteio: real): Cliente {
    if s.manual then s
    else
      var n := s.tentativa + 1;
      var t := SemTimers(s);
      t.(status := Reconectando, tentativa := n, reconexao := Some(s.proximo),
         timers := t.timers[s.proximo := Reconexao(n, Atraso(n, sorteio))], proximo := s.proximo + 1)
  }

  function SemFluxo(s: Cliente, c: nat): Cliente {
    s.(fluxos := s.fluxos - {c})
  }

  /** The response to a stream's request; a listener of the refusal may itself throw. */
  datatype Resposta = Ok | NaoAutorizado(excecao: bool) | ErroHttp

  datatype Ocorrencia =
    | Conectar(opcoes: Opcoes)
    | Desconectar
    | Dispara(timer: nat)
    | Responde(fluxo: nat, resposta: Resposta, sorteio: real)
    | Chega(fluxo: nat)                                        // a chunk of the body
    | Termina(fluxo: nat, sorteio: real)                       // the body ends
    | Falha(fluxo: nat, aborto: bool, sorteio: real)           // an AbortError, or any other

  ghost predicate Possivel(s: Cliente, e: Ocorrencia) {
    match e
    case Conectar(_) => true
    case Desconectar => true
    case Dispara(id) => id in s.timers
    case Responde(c, _, x) => c in s.fluxos && !s.fluxos[c].lendo && 0.0 <= x < 1.0
    case Chega(c) => c in s.fluxos && s.fluxos[c].lendo
    case Termina(c, x) => c in s.fluxos && s.fluxos[c].lendo && 0.0 <= x < 1.0
    case Falha(c, _, x) => c in s.fluxos && 0.0 <= x < 1.0
  }

  ghost function Respondido(s: Cliente, c: nat, r: Resposta, x: real): Cliente
    requires c in s.fluxos
  {
    match r
    case Ok => ComVigia(s.(fluxos := s.fluxos[c := s.fluxos[c].(lendo := true)], tentativa := 0, status := Conectado))
    case NaoAutorizado(excecao) =>
      var t := SemFluxo(s, c).(status := Desconectado);
      if excecao then Agendado(t, x) else t
    case ErroHttp => Agendado(SemFluxo(s, c), x)
  }

  ghost function Disparado(s: Cliente, id: nat): Cliente
    requires id in s.timers
  {
    var t := s.(timers := s.timers - {id});
    if s.timers[id].Reconexao? then Iniciado(t) else if s.status.Conectado? then Abortado(t) else t
  }

  ghost function Passo(s: Cliente, e: Ocorrencia): Cliente
    requires Possivel(s, e)
  {
    match e
    case Conectar(o) => Iniciado(s.(manual := false, opcoes := Some(o), tentativa := 0))
    case Desconectar => Abortado(SemTimers(s)).(manual := true, controle := None, status := Desconectado)
    case Dispara(id) => Disparado(s, id)
    case Responde(c, r, x) => Respondido(s, c, r, x)
    case Chega(_) => ComVigia(s)
    case Termina(c, x) => Agendado(SemFluxo(s, c), x)
    case Falha(c, aborto, x) => if aborto then SemFluxo(s, c) else Agendado(SemFluxo(s, c), x)
  }

  // ---------------------------------------------------------------- the class

  class SseClient {
    var isManualDisconnect: bool
    var reconnectAttempt: nat
    var currentOptions: Option<Opcoes>
    var connectionState: Status
    var reconnectTimeoutId: Option<nat>
    var heartbeatTimeoutId: Option<nat>
    var abortController: Option<nat>
    var timers: map<nat, Timer>
    var fluxos: map<nat, Fluxo>
    var proximo: nat

    ghost function Contents(): Cliente
      reads this
    {
      Cliente(isManualDisconnect, reconnectAttempt, currentOptions, connectionState,
              reconnectTimeoutId, heartbeatTimeoutId, abortController, timers, fluxos, proximo)
    }

    constructor ()
      ensures Contents() == Cliente(false, 0, None, Desconectado, None, None, None, map[], map[], 0)
    {
      isManualDisconnect, reconnectAttempt, currentOptions, connectionState := false, 0, None, Desconectado;
      reconnectTimeoutId, heartbeatTimeoutId, abortController := None, None, None;
      timers, fluxos, proximo := map[], map[], 0;
    }

    method SetTimeout(t: Timer) returns (id: nat)
      modifies this`timers, this`proximo
      ensures id == old(proximo) && proximo == id + 1 && timers == old(timers)[id := t]
    {
      id := proximo;
      timers, proximo := timers[id := t], id + 1;
    }

    method Connect(options: Opcoes)
      modifies this
      ensures Contents() == Passo(old(Contents()), Conectar(options))
      ensures !isManualDisconnect && reconnectAttempt == 0 && currentOptions == Some(options)
      ensures options.mock ==> connectionState == Desconectado && fluxos == old(fluxos) && timers == old(timers)
      ensures !options.mock ==>
                && connectionState == Conectando && abortController == Some(old(proximo))
                && fluxos == old(fluxos)[old(proximo) := Fluxo(false, false)]
                && reconnectTimeoutId == None && heartbeatTimeoutId == None
    {
      isManualDisconnect := false;
      currentOptions := Some(options);
      reconnectAttempt := 0;
      StartStreaming();
    }

    method Disconnect()
      modifies this
      ensures Contents() == Passo(old(Contents()), Desconectar)
      ensures isManualDisconnect && connectionState == Desconectado && abortController == None
      ensures reconnectTimeoutId == None && heartbeatTimeoutId == None
      ensures forall id :: id in timers <==>
                id in old(timers) && Some(id) != old(reconnectTimeoutId) && Some(id) != old(heartbeatTimeoutId)
      ensures forall c :: c in fluxos <==> c in old(fluxos)
      ensures forall c :: c in fluxos ==>
                fluxos[c] == if old(abortController) == Some(c) then Fluxo(old(fluxos)[c].lendo, true) else old(fluxos)[c]
    {
      isManualDisconnect := true;
      ClearTimers();
      if abortController.Some? {
        Abort();
        abortController := None;
      }
      connectionState := Desconectado;
    }

    method Abort()
      modifies this`fluxos
      ensures Contents() == Abortado(old(Contents()))
    {
      if abortController.Some? && abortController.value in fluxos {
        var c := abortController.value;
        fluxos := fluxos[c := fluxos[c].(abortado := true)];
      }
    }

    method ClearTimers()
      modifies this`timers, this`reconnectTimeoutId, this`heartbeatTimeoutId
      ensures Contents() == SemTimers(old(Contents()))
    {
      if reconnectTimeoutId.Some? {
        timers := timers - {reconnectTimeoutId.value};
        reconnectTimeoutId := None;
      }
      if heartbeatTimeoutId.Some? {
        timers := timers - {heartbeatTimeoutId.value};
        heartbeatTimeoutId := None;
      }
    }

    method ResetHeartbeatWatchdog()
      modifies this`timers, this`proximo, this`heartbeatTimeoutId
      ensures Contents() == ComVigia(old(Contents()))
      ensures heartbeatTimeoutId == Some(old(proximo)) && old(proximo) in timers && timers[old(proximo)] == Vigia
      ensures forall id :: id in timers && id != old(proximo) <==>
                id in old(timers) && id != old(proximo) && Some(id) != old(heartbeatTimeoutId)
    {
      if heartbeatTimeoutId.Some? {
        timers := timers - {heartbeatTimeoutId.value};
      }
      var id := SetTimeout(Vigia);
      heartbeatTimeoutId := Some(id);
    }

    method StartStreaming()
      modifies this
      ensures Contents() == Iniciado(old(Contents()))
      ensures old(currentOptions) == None || old(isManualDisconnect) ==> Contents() == old(Contents())
      ensures old(currentOptions) == Some(Opcoes(true)) && !old(isManualDisconnect) ==>
                connectionState == Desconectado && fluxos == old(fluxos) && timers == old(timers)
      ensures old(currentOptions) == Some(Opcoes(false)) && !old(isManualDisconnect) ==>
                && connectionState == (if old(reconnectAttempt) == 0 then Conectando else Reconectando)
                && abortController == Some(old(proximo)) && reconnectAttempt == old(reconnectAttempt)
                && fluxos == old(fluxos)[old(proximo) := Fluxo(false, false)]
                && reconnectTimeoutId == None && heartbeatTimeoutId == None
    {
      if currentOptions.None? || isManualDisconnect {
        return;
      }
      if currentOptions.value.mock {
        connectionState := Desconectado;
        return;
      }
      ClearTimers();
      connectionState := if reconnectAttempt == 0 then Conectando else Reconectando;
      abortController := Some(proximo);
      fluxos := fluxos[proximo := Fluxo(false, false)];
      proximo := proximo + 1;
    }

    method ScheduleReconnect(sorteio: real)
      modifies this
      ensures Contents() == Agendado(old(Contents()), sorteio)
      ensures old(isManualDisconnect) ==> Contents() == old(Contents())
      ensures !old(isManualDisconnect) ==>
                && reconnectAttempt == old(reconnectAttempt) + 1 && connectionState == Reconectando
                && reconnectTimeoutId == Some(old(proximo)) && heartbeatTimeoutId == None
                && old(proximo) in timers
                && timers[old(proximo)] == Reconexao(reconnectAttempt, Atraso(reconnectAttempt, sorteio))
      ensures fluxos == old(fluxos) && abortController == old(abortController)
    {
      if isManualDisconnect {
        return;
      }
      connectionState := Reconectando;
      reconnectAttempt := reconnectAttempt + 1;
      var atraso := Atraso(reconnectAttempt, sorteio);
      ClearTimers();
      var id := SetTimeout(Reconexao(reconnectAttempt, atraso));
      reconnectTimeoutId := Some(id);
    }

    /** The rest of startStreaming, from the response on. */
    method OnResponse(c: nat, r: Resposta, sorteio: real)
      requires Possivel(Contents(), Responde(c, r, sorteio))
      modifies this
      ensures Contents() == Passo(old(Contents()), Responde(c, r, sorteio))
      ensures r == Ok ==>
                && reconnectAttempt == 0 && connectionState == Conectado && heartbeatTimeoutId == Some(old(proximo))
                && fluxos == old(fluxos)[c := Fluxo(true, old(fluxos)[c].abortado)]
      ensures r != Ok ==> fluxos == old(fluxos) - {c}
      ensures r == NaoAutorizado(false) ==>
                connectionState == Desconectado && timers == old(timers) && reconnectAttempt == old(reconnectAttempt)
      ensures (r == ErroHttp || r == NaoAutorizado(true)) && !old(isManualDisconnect) ==>
                reconnectAttempt == old(reconnectAttempt) + 1 && reconnectTimeoutId == Some(old(proximo))
    {
      if r.NaoAutorizado? {
        fluxos := fluxos - {c};
        connectionState := Desconectado;
        if r.excecao {
          OnError(false, sorteio);
        }
      } else if r.ErroHttp? {
        fluxos := fluxos - {c};
        OnError(false, sorteio);
      } else {
        reconnectAttempt := 0;
        connectionState := Conectado;
        ResetHeartbeatWatchdog();
        fluxos := fluxos[c := fluxos[c].(lendo := true)];
      }
    }

    /** The catch block. */
    method OnError(aborto: bool, sorteio: real)
      modifies this
      ensures Contents() == if aborto then old(Contents()) else Agendado(old(Contents()), sorteio)
    {
      if isManualDisconnect || aborto {
        return;
      }
      ScheduleReconnect(sorteio);
    }

    method OnEnd(c: nat, sorteio: real)
      requires Possivel(Contents(), Termina(c, sorteio))
      modifies this
      ensures Contents() == Passo(old(Contents()), Termina(c, sorteio))
      ensures fluxos == old(fluxos) - {c}
      ensures !old(isManualDisconnect) ==>
                reconnectAttempt == old(reconnectAttempt) + 1 && reconnectTimeoutId == Some(old(proximo))
    {
      fluxos := fluxos - {c};
      if !isManualDisconnect {
        ScheduleReconnect(sorteio);
      }
    }

    method OnFailure(c: nat, aborto: bool, sorteio: real)
      requires Possivel(Contents(), Falha(c, aborto, sorteio))
      modifies this
      ensures Contents() == Passo(old(Contents()), Falha(c, aborto, sorteio))
      ensures fluxos == old(fluxos) - {c}
      ensures aborto ==> timers == old(timers) && connectionState == old(connectionState)
      ensures !aborto && !old(isManualDisconnect) ==>
                reconnectAttempt == old(reconnectAttempt) + 1 && reconnectTimeoutId == Some(old(proximo))
    {
      fluxos := fluxos - {c};
      OnError(aborto, sorteio);
    }

    method OnTimer(id: nat)
      requires Possivel(Contents(), Dispara(id))
      modifies this
      ensures Contents() == Passo(old(Contents()), Dispara(id))
      ensures id !in timers || id == old(proximo)
      ensures old(timers)[id] == Vigia ==>
                && timers == old(timers) - {id} && fluxos.Keys == old(fluxos).Keys
                && forall c :: c in fluxos ==>
                     fluxos[c] == if old(abortController) == Some(c) && old(connectionState) == Conectado
                                  then Fluxo(old(fluxos)[c].lendo, true) else old(fluxos)[c]
    {
      var t := timers[id];
      timers := timers - {id};
      if t.Reconexao? {
        StartStreaming();
      } else if connectionState.Conectado? {
        Abort();
      }
    }
  }

  // ---------------------------------------------------------------- whole runs

  ghost predicate StepBy(s: Cliente, s': Cliente, e: Ocorrencia) {
    Possivel(s, e) && s' == Passo(s, e)
  }

  ghost predicate IsRun(run: seq<Cliente>, es: seq<Ocorrencia>) {
    && |run| == |es| + 1
    && run[0] == Cliente(false, 0, None, Desconectado, None, None, None, map[], map[], 0)
    && forall i :: 0 <= i < |es| ==> StepBy(run[i], run[i + 1], es[i])
  }

  ghost predicate Pendente(s: Cliente, id: nat) {
    id in s.timers && s.timers[id].Reconexao?
  }

  /** What a pending timer looks like: the field of its kind names it, and a reconnection was
      given a delay within its attempt's bounds. */
  ghost predicate TimerInv(s: Cliente, id: nat)
    requires id in s.timers
  {
    && id < s.proximo
    && match s.timers[id]
       case Vigia => s.vigia == Some(id)
       case Reconexao(n, atraso) =>
         !s.manual && s.reconexao == Some(id) && n > 0 && Base(n) <= atraso <= Base(n) + 1000
  }

  ghost predicate Inv(s: Cliente) {
    && (forall id :: id in s.timers ==> TimerInv(s, id))
    && (forall c :: c in s.fluxos ==> c < s.proximo)
    && (s.reconexao.Some? ==> s.reconexao.value < s.proximo)
    && (s.vigia.Some? ==> s.vigia.value < s.proximo && s.reconexao != s.vigia)
  }

  lemma NoTimersLeft(s: Cliente)
    requires Inv(s)
    ensures SemTimers(s).timers == map[] && Inv(SemTimers(s))
  {
    forall id | id in s.timers ensures id !in SemTimers(s).timers {
      assert TimerInv(s, id);
    }
  }

  lemma WatchedKeepsInv(s: Cliente)
    requires Inv(s)
    ensures Inv(ComVigia(s))
  {
    forall id | id in ComVigia(s).timers ensures TimerInv(ComVigia(s), id) {
      if id != s.proximo {
        assert TimerInv(s, id);
      }
    }
  }

  lemma ScheduledKeepsInv(s: Cliente, x: real)
    requires Inv(s) && 0.0 <= x < 1.0
    ensures Inv(Agendado(s, x))
  {
    if !s.manual {
      NoTimersLeft(s);
      DelayWithin(s.tentativa + 1, x);
    }
  }

  lemma StartedKeepsInv(s: Cliente)
    requires Inv(s)
    ensures Inv(Iniciado(s))
  {
    NoTimersLeft(s);
    forall id | id in Iniciado(s).timers ensures TimerInv(Iniciado(s), id) {
      assert TimerInv(s, id);
    }
  }

  /** Changes that touch neither the timers nor the fields that name them, and add no stream. */
  lemma OthersKeepInv(s: Cliente, s': Cliente)
    requires Inv(s)
    requires s'.timers == s.timers || exists id :: s'.timers == s.timers - {id}
    requires s'.reconexao == s.reconexao && s'.vigia == s.vigia && s'.proximo == s.proximo
    requires s'.fluxos.Keys <= s.fluxos.Keys && (s'.manual ==> s.manual)
    ensures Inv(s')
  {
    forall id | id in s'.timers ensures TimerInv(s', id) {
      assert TimerInv(s, id);
    }
  }

  lemma StepKeepsInv(s: Cliente, e: Ocorrencia)
    requires Inv(s) && Possivel(s, e)
    ensures Inv(Passo(s, e))
  {
    match e
    case Conectar(o) =>
      var t := s.(manual := false, opcoes := Some(o), tentativa := 0);
      OthersKeepInv(s, t);
      StartedKeepsInv(t);
    case Desconectar =>
      NoTimersLeft(s);
    case Dispara(id) =>
      var t := s.(timers := s.timers - {id});
      OthersKeepInv(s, t);
      if s.timers[id].Reconexao? {
        StartedKeepsInv(t);
      } else {
        OthersKeepInv(t, Abortado(t));
      }
    case Responde(c, r, x) =>
      OthersKeepInv(s, SemFluxo(s, c));
      OthersKeepInv(s, SemFluxo(s, c).(status := Desconectado));
      ScheduledKeepsInv(SemFluxo(s, c), x);
      ScheduledKeepsInv(SemFluxo(s, c).(status := Desconectado), x);
      var lido := s.(fluxos := s.fluxos[c := s.fluxos[c].(lendo := true)], tentativa := 0, status := Conectado);
      OthersKeepInv(s, lido);
      WatchedKeepsInv(lido);
    case Chega(_) =>
      WatchedKeepsInv(s);
    case Termina(c, x) =>
      OthersKeepInv(s, SemFluxo(s, c));
      ScheduledKeepsInv(SemFluxo(s, c), x);
    case Falha(c, aborto, x) =>
      OthersKeepInv(s, SemFluxo(s, c));
      ScheduledKeepsInv(SemFluxo(s, c), x);
  }

  lemma {:induction false} RunKeepsInv(run: seq<Cliente>, es: seq<Ocorrencia>, i: nat)
    requires IsRun(run, es) && i < |run|
    ensures Inv(run[i])
  {
    if i > 0 {
      RunKeepsInv(run, es, i - 1);
      assert StepBy(run[i - 1], run[i], es[i - 1]);
      StepKeepsInv(run[i - 1], es[i - 1]);
    }
  }

  /** In every state of every run at most one reconnect timer is pending, with a delay between
      one and thirty-one seconds, and none while the client was disconnected by its caller. */
  lemma AtMostOneTimer(run: seq<Cliente>, es: seq<Ocorrencia>, i: nat, a: nat, b: nat)
    requires IsRun(run, es) && i < |run| && Pendente(run[i], a) && Pendente(run[i], b)
    ensures a == b && !run[i].manual
    ensures 1000 <= run[i].timers[a].atraso <= 31000
  {
    RunKeepsInv(run, es, i);
    assert TimerInv(run[i], a) && TimerInv(run[i], b);
    BaseGrows(run[i].timers[a].tentativa, run[i].timers[a].tentativa);
  }

  // ---------------------------------------------------------------- what the fields remember

  /** Disconnected by the caller after the first n events. */
  ghost predicate Desligado(es: seq<Ocorrencia>, n: nat)
    requires n <= |es|
  {
    n > 0 && !es[n - 1].Conectar? && (es[n - 1].Desconectar? || Desligado(es, n - 1))
  }

  /** The token of the latest connect. */
  ghost function UltimasOpcoes(es: seq<Ocorrencia>, n: nat): Option<Opcoes>
    requires n <= |es|
  {
    if n == 0 then None else if es[n - 1].Conectar? then Some(es[n - 1].opcoes) else UltimasOpcoes(es, n - 1)
  }

  /** The events that end in a scheduled reconnection, unless the caller disconnected. */
  ghost predicate Reagenda(e: Ocorrencia) {
    match e
    case Termina(_, _) => true
    case Falha(_, aborto, _) => !aborto
    case Responde(_, r, _) => r == ErroHttp || r == NaoAutorizado(true)
    case _ => false
  }

  ghost predicate Zera(e: Ocorrencia) {
    e.Conectar? || (e.Responde? && e.resposta == Ok)
  }

  /** How many reconnections were scheduled since the latest connect or good response. */
  ghost function Agendamentos(es: seq<Ocorrencia>, n: nat): nat
    requires n <= |es|
  {
    if n == 0 || Zera(es[n - 1]) then 0
    else Agendamentos(es, n - 1) + if Reagenda(es[n - 1]) && !Desligado(es, n - 1) then 1 else 0
  }

  ghost predicate Lembra(s: Cliente, es: seq<Ocorrencia>, n: nat)
    requires n <= |es|
  {
    s.manual == Desligado(es, n) && s.opcoes == UltimasOpcoes(es, n) && s.tentativa == Agendamentos(es, n)
  }

  lemma StepRemembers(s: Cliente, s': Cliente, es: seq<Ocorrencia>, n: nat)
    requires n < |es| && StepBy(s, s', es[n]) && Lembra(s, es, n)
    ensures Lembra(s', es, n + 1)
  {
    assert Agendamentos(es, n + 1)
           == if Zera(es[n]) then 0 else Agendamentos(es, n) + if Reagenda(es[n]) && !Desligado(es, n) then 1 else 0;
  }

  /** In every run the client's flag, its token and its attempt count are what the events so far
      say: the count is that of the reconnections scheduled since the latest connect or good response. */
  lemma {:induction false} FieldsRemember(run: seq<Cliente>, es: seq<Ocorrencia>, i: nat)
    requires IsRun(run, es) && i < |run|
    ensures run[i].manual == Desligado(es, i)
    ensures run[i].opcoes == UltimasOpcoes(es, i)
    ensures run[i].tentativa == Agendamentos(es, i)
  {
    if i > 0 {
      FieldsRemember(run, es, i - 1);
      assert StepBy(run[i - 1], run[i], es[i - 1]);
      StepRemembers(run[i - 1], run[i], es, i - 1);
    }
  }

  ghost function Sorteio(e: Ocorrencia): real
    requires Reagenda(e)
  {
    match e
    case Responde(_, _, x) => x
    case Termina(_, x) => x
    case Falha(_, _, x) => x
  }

  /** A scheduling leaves one timer, for an attempt numbered one more than the reconnections
      scheduled before it since the latest connect or good response, with that attempt's delay. */
  lemma SchedulingCounts(run: seq<Cliente>, es: seq<Ocorrencia>, i: nat)
    requires IsRun(run, es) && i < |es| && Reagenda(es[i]) && !Desligado(es, i)
    ensures run[i + 1].status == Reconectando
    ensures var n := Agendamentos(es, i) + 1;
            run[i + 1].timers == map[run[i].proximo := Reconexao(n, Atraso(n, Sorteio(es[i])))]
  {
    FieldsRemember(run, es, i);
    RunKeepsInv(run, es, i);
    assert StepBy(run[i], run[i + 1], es[i]);
    var s := match es[i]
      case Responde(c, r, _) =>
        if r.ErroHttp? then SemFluxo(run[i], c) else SemFluxo(run[i], c).(status := Desconectado)
      case Termina(c, _) => SemFluxo(run[i], c)
      case Falha(c, _, _) => SemFluxo(run[i], c);
    OthersKeepInv(run[i], s);
    NoTimersLeft(s);
  }

  /** The timer was set by event k and counts the reconnections up to then. */
  ghost predicate SetBy(es: seq<Ocorrencia>, k: nat, t: Timer)
    requires k < |es|
  {
    && t.Reconexao? && Reagenda(es[k]) && !Desligado(es, k)
    && t.tentativa == Agendamentos(es, k) + 1 && t.atraso == Atraso(t.tentativa, Sorteio(es[k]))
  }

  ghost predicate Zerou(es: seq<Ocorrencia>, k: nat, i: nat)
    requires i <= |es|
  {
    exists m :: k < m < i && Zera(es[m])
  }

  ghost predicate Counts(es: seq<Ocorrencia>, k: nat, i: nat, t: Timer)
    requires i <= |es|
  {
    && k < i && SetBy(es, k, t)
    && t.atraso >= Base(Agendamentos(es, k) + 1)
    && (t.tentativa == Agendamentos(es, i) <==> !Zerou(es, k, i))
  }

  lemma CountsWhenSet(run: seq<Cliente>, es: seq<Ocorrencia>, i: nat, id: nat)
    requires IsRun(run, es) && i < |es| && Reagenda(es[i]) && !Desligado(es, i) && Pendente(run[i + 1], id)
    ensures Counts(es, i, i + 1, run[i + 1].timers[id])
  {
    SchedulingCounts(run, es, i);
    assert StepBy(run[i], run[i + 1], es[i]);
    DelayWithin(Agendamentos(es, i) + 1, Sorteio(es[i]));
  }

  lemma CountsLater(es: seq<Ocorrencia>, k: nat, i: nat, t: Timer)
    requires i < |es| && Counts(es, k, i, t) && !(Reagenda(es[i]) && !Desligado(es, i))
    requires Zerou(es, k, i) ==> Agendamentos(es, i) == 0
    ensures Counts(es, k, i + 1, t)
    ensures Zerou(es, k, i + 1) ==> Agendamentos(es, i + 1) == 0
  {
    ZerouNext(es, k, i);
  }

  /** Every pending reconnection was set by some event, and waits what the reconnections scheduled
      by then ask for: at least the base delay of their number. They are those scheduled by now,
      since the latest connect or good response, unless one of these came after it was set. */
  lemma {:induction false} PendingCounts(run: seq<Cliente>, es: seq<Ocorrencia>, i: nat, id: nat) returns (k: nat)
    requires IsRun(run, es) && i < |run| && Pendente(run[i], id)
    ensures Counts(es, k, i, run[i].timers[id])
    ensures Zerou(es, k, i) ==> Agendamentos(es, i) == 0
  {
    assert StepBy(run[i - 1], run[i], es[i - 1]);
    if Reagenda(es[i - 1]) && !Desligado(es, i - 1) {
      CountsWhenSet(run, es, i - 1, id);
      k := i - 1;
    } else {
      FieldsRemember(run, es, i - 1);
      OldTimersStay(run[i - 1], es[i - 1], id);
      k := PendingCounts(run, es, i - 1, id);
      CountsLater(es, k, i - 1, run[i].timers[id]);
    }
  }

  lemma ZerouNext(es: seq<Ocorrencia>, k: nat, n: nat)
    requires k < n < |es|
    ensures Zerou(es, k, n + 1) <==> Zerou(es, k, n) || Zera(es[n])
  {
  }

  lemma OldTimersStay(s: Cliente, e: Ocorrencia, id: nat)
    requires Possivel(s, e) && (Reagenda(e) ==> s.manual) && Pendente(Passo(s, e), id)
    ensures Pendente(s, id) && Passo(s, e).timers[id] == s.timers[id]
  {
  }

  /** After a good response, and after every chunk, exactly one watchdog is pending: a new one. */
  lemma OneWatchdog(run: seq<Cliente>, es: seq<Ocorrencia>, i: nat, id: nat)
    requires IsRun(run, es) && i < |es| && (es[i].Chega? || (es[i].Responde? && es[i].resposta == Ok))
    ensures id in run[i + 1].timers && run[i + 1].timers[id] == Vigia <==> id == run[i].proximo
    ensures id !in run[i].timers || id != run[i].proximo
  {
    RunKeepsInv(run, es, i);
    RunKeepsInv(run, es, i + 1);
    assert StepBy(run[i], run[i + 1], es[i]);
    if id in run[i].timers {
      assert TimerInv(run[i], id);
    }
    if id in run[i + 1].timers {
      assert TimerInv(run[i + 1], id);
    }
  }

  /** A request starts only by a connect or by the pending reconnect timer, never while the
      client stays disconnected by its caller. */
  lemma FetchStartsIff(run: seq<Cliente>, es: seq<Ocorrencia>, i: nat)
    requires IsRun(run, es) && i < |es|
    ensures (exists c :: c in run[i + 1].fluxos && c !in run[i].fluxos) <==>
            || (es[i].Conectar? && !es[i].opcoes.mock)
            || (es[i].Dispara? && Pendente(run[i], es[i].timer) && !run[i].manual
                && run[i].opcoes.Some? && !run[i].opcoes.value.mock)
    ensures run[i + 1].manual ==> run[i + 1].fluxos.Keys <= run[i].fluxos.Keys
  {
    RunKeepsInv(run, es, i);
    var s, e := run[i], es[i];
    assert StepBy(s, run[i + 1], e);
    assert s.proximo !in s.fluxos;
    if (e.Conectar? && !e.opcoes.mock)
       || (e.Dispara? && Pendente(s, e.timer) && !s.manual && s.opcoes.Some? && !s.opcoes.value.mock) {
      assert s.proximo in run[i + 1].fluxos;
    }
  }

  // ---------------------------------------------------------------- when the client gives up

  /** A request or a body is in flight, or a reconnection is pending. */
  ghost predicate Tentando(s: Cliente) {
    s.fluxos != map[] || exists id :: Pendente(s, id)
  }

  /** The last thing being tried ends in a branch that schedules nothing: a disconnect, a
      refusal, an AbortError, or a start with a simulation token. */
  ghost predicate Desiste(s: Cliente, e: Ocorrencia)
    requires Possivel(s, e)
  {
    match e
    case Desconectar => s.fluxos == map[]
    case Dispara(id) => s.timers[id].Reconexao? && s.fluxos == map[] && (s.opcoes.None? || s.opcoes.value.mock)
    case Responde(c, r, _) => r == NaoAutorizado(false) && !Tentando(SemFluxo(s, c))
    case Falha(c, aborto, _) => aborto && !Tentando(SemFluxo(s, c))
    case _ => false
  }

  lemma ScheduledTries(s: Cliente, x: real)
    requires !s.manual
    ensures Tentando(Agendado(s, x))
  {
    assert Pendente(Agendado(s, x), s.proximo);
  }

  lemma SamePending(s: Cliente, s': Cliente)
    requires s'.timers == s.timers && (s'.fluxos == map[] <==> s.fluxos == map[])
    ensures Tentando(s') <==> Tentando(s)
  {
    assert forall id :: Pendente(s', id) <==> Pendente(s, id);
  }

  lemma StartedTriesIff(s: Cliente)
    requires !s.manual
    ensures Tentando(Iniciado(s)) <==> (s.opcoes.Some? && !s.opcoes.value.mock) || Tentando(s)
  {
    if s.opcoes.None? || s.opcoes.value.mock {
      SamePending(s, Iniciado(s));
    } else {
      assert s.proximo in Iniciado(s).fluxos;
    }
  }

  lemma WatchedTriesIff(s: Cliente)
    requires Inv(s)
    ensures Tentando(ComVigia(s)) <==> Tentando(s)
  {
    forall id ensures Pendente(ComVigia(s), id) <==> Pendente(s, id) {
      if id in s.timers {
        assert TimerInv(s, id);
      }
      if s.vigia.Some? && s.vigia.value in s.timers {
        assert TimerInv(s, s.vigia.value);
      }
    }
  }

  lemma StoppedTriesIff(s: Cliente)
    requires Inv(s)
    ensures Tentando(Passo(s, Desconectar)) <==> s.fluxos != map[]
  {
    NoTimersLeft(s);
    var s' := Passo(s, Desconectar);
    assert s'.fluxos.Keys == s.fluxos.Keys;
    assert forall id :: !Pendente(s', id);
  }

  lemma FiredTriesIff(s: Cliente, id: nat)
    requires Inv(s) && !s.manual && id in s.timers && Tentando(s)
    ensures Tentando(Disparado(s, id)) <==> !Desiste(s, Dispara(id))
  {
    var t := s.(timers := s.timers - {id});
    assert TimerInv(s, id);
    if s.timers[id].Reconexao? {
      forall k ensures !Pendente(t, k) {
        if k in s.timers {
          assert TimerInv(s, k);
        }
      }
      StartedTriesIff(t);
    } else {
      assert forall k :: Pendente(t, k) <==> Pendente(s, k);
      assert Abortado(t).fluxos.Keys == t.fluxos.Keys;
      SamePending(t, Abortado(t));
    }
  }

  lemma AnsweredTriesIff(s: Cliente, c: nat, r: Resposta, x: real)
    requires Inv(s) && !s.manual && c in s.fluxos
    ensures Tentando(Respondido(s, c, r, x)) <==> !(r == NaoAutorizado(false) && !Tentando(SemFluxo(s, c)))
  {
    match r
    case Ok =>
      assert c in ComVigia(s).fluxos && c in Respondido(s, c, r, x).fluxos;
    case NaoAutorizado(excecao) =>
      ScheduledTries(SemFluxo(s, c).(status := Desconectado), x);
      SamePending(SemFluxo(s, c), SemFluxo(s, c).(status := Desconectado));
    case ErroHttp =>
      ScheduledTries(SemFluxo(s, c), x);
  }

  /** While not disconnected by its caller, a client that is trying keeps trying through every
      event but those. In particular the end of a stream and any error other than an
      AbortError always leave a reconnection pending. */
  lemma GivesUpIff(s: Cliente, e: Ocorrencia)
    requires Inv(s) && !s.manual && Possivel(s, e) && Tentando(s)
    ensures Tentando(Passo(s, e)) <==> !Desiste(s, e)
  {
    match e
    case Conectar(o) =>
      var t := s.(manual := false, opcoes := Some(o), tentativa := 0);
      SamePending(s, t);
      StartedTriesIff(t);
    case Desconectar => StoppedTriesIff(s);
    case Dispara(id) => FiredTriesIff(s, id);
    case Responde(c, r, x) => AnsweredTriesIff(s, c, r, x);
    case Chega(_) => WatchedTriesIff(s);
    case Termina(c, x) => ScheduledTries(SemFluxo(s, c), x);
    case Falha(c, aborto, x) =>
      if !aborto {
        ScheduledTries(SemFluxo(s, c), x);
      }
  }

  lemma AbortedLeavesIdle(s: Cliente, v: nat, c: nat, x: real)
    requires Inv(s) && !s.manual && s.status == Conectado
    requires v in s.timers && s.timers[v] == Vigia && (forall id :: !Pendente(s, id))
    requires s.controle == Some(c) && s.fluxos.Keys == {c} && 0.0 <= x < 1.0
    ensures var aborted := Passo(s, Dispara(v));
            && aborted.fluxos[c].abortado
            && !Tentando(Passo(aborted, Falha(c, true, x)))
            && Passo(aborted, Falha(c, true, x)).status == Conectado
            && !Passo(aborted, Falha(c, true, x)).manual
  {
    var aborted := Passo(s, Dispara(v));
    var left := Passo(aborted, Falha(c, true, x));
    assert left.fluxos.Keys == {};
    forall id ensures !Pendente(left, id) {
      assert !Pendente(s, id);
    }
  }

  /** In any run, the heartbeat watchdog of the only stream aborts it, and the AbortError that
      follows schedules nothing: the client is left idle, still reporting itself connected. */
  lemma WatchdogStalls(run: seq<Cliente>, es: seq<Ocorrencia>, i: nat, c: nat)
    requires IsRun(run, es) && i + 1 < |es|
    requires !run[i].manual && run[i].status == Conectado && (forall id :: !Pendente(run[i], id))
    requires run[i].controle == Some(c) && run[i].fluxos.Keys == {c}
    requires es[i].Dispara? && es[i].timer in run[i].timers && run[i].timers[es[i].timer] == Vigia
    requires es[i + 1].Falha? && es[i + 1].fluxo == c && es[i + 1].aborto
    ensures run[i + 1].fluxos.Keys == {c} && run[i + 1].fluxos[c].abortado
    ensures !Tentando(run[i + 2]) && run[i + 2].status == Conectado && !run[i + 2].manual
  {
    RunKeepsInv(run, es, i);
    assert StepBy(run[i], run[i + 1], es[i]) && StepBy(run[i + 1], run[i + 2], es[i + 1]);
    AbortedLeavesIdle(run[i], es[i].timer, c, es[i + 1].sorteio);
  }

  /** Such a run: connect, a good response, no heartbeat, the abort. */
  lemma SomeRunStalls() returns (run: seq<Cliente>, es: seq<Ocorrencia>)
    ensures IsRun(run, es) && |es| == 4
    ensures !Tentando(run[4]) && run[4].status == Conectado && !run[4].manual
  {
    es := [Conectar(Opcoes(false)), Responde(0, Ok, 0.0), Dispara(1), Falha(0, true, 0.0)];
    var s0 := Cliente(false, 0, None, Desconectado, None, None, None, map[], map[], 0);
    var s1 := Passo(s0, es[0]);
    assert s1 == Cliente(false, 0, Some(Opcoes(false)), Conectando, None, None, Some(0),
                         map[], map[0 := Fluxo(false, false)], 1);
    var s2 := Passo(s1, es[1]);
    assert s2 == Cliente(false, 0, Some(Opcoes(false)), Conectado, None, Some(1), Some(0),
                         map[1 := Vigia], map[0 := Fluxo(true, false)], 2);
    var s3 := Passo(s2, es[2]);
    var s4 := Passo(s3, es[3]);
    run := [s0, s1, s2, s3, s4];
    assert StepBy(s0, s1, es[0]) && StepBy(s1, s2, es[1]) && StepBy(s2, s3, es[2]) && StepBy(s3, s4, es[3]);
    WatchdogStalls(run, es, 2, 0);
  }

  /** An idle client stays idle until its caller connects again. */
  lemma {:induction false} IdleUntilConnect(run: seq<Cliente>, es: seq<Ocorrencia>, i: nat, j: nat)
    requires IsRun(run, es) && i <= j < |run| && !Tentando(run[i])
    requires forall k :: i <= k < j ==> !es[k].Conectar?
    ensures !Tentando(run[j])
  {
    if i < j {
      IdleUntilConnect(run, es, i, j - 1);
      RunKeepsInv(run, es, j - 1);
      assert StepBy(run[j - 1], run[j], es[j - 1]);
      IdleStep(run[j - 1], es[j - 1]);
    }
  }

  lemma IdleStep(s: Cliente, e: Ocorrencia)
    requires Inv(s) && Possivel(s, e) && !Tentando(s) && !e.Conectar?
    ensures !Tentando(Passo(s, e))
  {
    match e
    case Desconectar => StoppedTriesIff(s);
    case Dispara(id) =>
      assert !Pendente(s, id);
      assert forall k :: Pendente(Passo(s, e), k) ==> Pendente(s, k);
    case _ =>
  }

  // ---------------------------------------------------------------- one stream at a time

  ghost predicate Ativo(s: Cliente, c: nat) {
    c in s.fluxos && !s.fluxos[c].abortado
  }

  /** An aborted request or read ends with an AbortError, and no other does. */
  ghost predicate Fiel(s: Cliente, e: Ocorrencia)
    requires Possivel(s, e)
  {
    match e
    case Responde(c, _, _) => !s.fluxos[c].abortado
    case Termina(c, _) => !s.fluxos[c].abortado
    case Falha(c, aborto, _) => aborto == s.fluxos[c].abortado
    case _ => true
  }

  /** Connect is called with a real token only when nothing is active; a pending reconnection it
      cancels itself. */
  ghost predicate Oportuno(s: Cliente, e: Ocorrencia) {
    e.Conectar? ==> e.opcoes.mock || forall c: nat :: !Ativo(s, c)
  }

  /** The active stream, if any, is the controller's, excludes a pending reconnection, and is
      never left behind by a disconnect. */
  ghost predicate Unico(s: Cliente) {
    && (forall c: nat :: Ativo(s, c) ==> s.controle == Some(c) && !s.manual)
    && (forall c, id :: Ativo(s, c) ==> !Pendente(s, id))
    && (s.manual ==> s.status == Desconectado)
  }

  /** No stream becomes active and no reconnection becomes pending. */
  ghost predicate Encolhe(s: Cliente, s': Cliente) {
    && (forall c :: Ativo(s', c) ==> Ativo(s, c))
    && (forall id :: Pendente(s', id) ==> Pendente(s, id))
    && s'.controle == s.controle && s'.manual == s.manual
  }

  lemma ShrinkKeepsUnico(s: Cliente, s': Cliente)
    requires Unico(s) && Encolhe(s, s') && (s'.manual ==> s'.status == Desconectado)
    ensures Unico(s')
  {
  }

  lemma ScheduledKeepsUnico(s: Cliente, x: real)
    requires Unico(s) && forall c :: !Ativo(s, c)
    ensures Unico(Agendado(s, x))
  {
    assert forall c :: Ativo(Agendado(s, x), c) ==> Ativo(s, c);
  }

  lemma StartedKeepsUnico(s: Cliente)
    requires Inv(s) && Unico(s) && forall c :: !Ativo(s, c)
    ensures Unico(Iniciado(s))
  {
    NoTimersLeft(s);
    var t := Iniciado(s);
    forall c: nat | Ativo(t, c) ensures c == s.proximo {
      assert c != s.proximo ==> Ativo(s, c);
    }
    if t.fluxos == s.fluxos {
      assert Encolhe(s, t);
    }
  }

  /** The only active stream ends. */
  lemma EndedLeavesNone(s: Cliente, c: nat)
    requires Unico(s) && Ativo(s, c)
    ensures Unico(SemFluxo(s, c)) && forall k :: !Ativo(SemFluxo(s, c), k)
  {
    assert Encolhe(s, SemFluxo(s, c));
    forall k: nat ensures !Ativo(SemFluxo(s, c), k) {
      if Ativo(s, k) {
        assert s.controle == Some(k);
      }
    }
  }

  lemma AnsweredKeepsUnico(s: Cliente, c: nat, r: Resposta, x: real)
    requires Inv(s) && Unico(s) && Ativo(s, c)
    ensures Unico(Respondido(s, c, r, x))
  {
    EndedLeavesNone(s, c);
    match r
    case Ok =>
      assert Encolhe(s, Respondido(s, c, r, x));
    case NaoAutorizado(excecao) =>
      var t := SemFluxo(s, c).(status := Desconectado);
      assert Encolhe(SemFluxo(s, c), t);
      ScheduledKeepsUnico(t, x);
    case ErroHttp =>
      ScheduledKeepsUnico(SemFluxo(s, c), x);
  }

  lemma FiredKeepsUnico(s: Cliente, id: nat)
    requires Inv(s) && Unico(s) && id in s.timers
    ensures Unico(Disparado(s, id))
  {
    var t := s.(timers := s.timers - {id});
    OthersKeepInv(s, t);
    assert Encolhe(s, t);
    if s.timers[id].Reconexao? {
      assert Pendente(s, id);
      assert forall c :: Ativo(t, c) ==> Ativo(s, c);
      StartedKeepsUnico(t);
    } else {
      assert Encolhe(t, Abortado(t));
    }
  }

  lemma StoppedKeepsUnico(s: Cliente)
    requires Inv(s) && Unico(s)
    ensures Unico(Passo(s, Desconectar)) && forall c :: !Ativo(Passo(s, Desconectar), c)
  {
    var s' := Passo(s, Desconectar);
    forall c: nat ensures !Ativo(s', c) {
      if Ativo(s, c) {
        assert s.controle == Some(c);
      }
    }
  }

  lemma ConnectKeepsUnico(s: Cliente, o: Opcoes)
    requires Inv(s) && Unico(s) && Oportuno(s, Conectar(o))
    ensures Unico(Passo(s, Conectar(o)))
  {
    var t := s.(manual := false, opcoes := Some(o), tentativa := 0);
    OthersKeepInv(s, t);
    assert forall c: nat :: Ativo(t, c) <==> Ativo(s, c);
    assert forall id: nat :: Pendente(t, id) <==> Pendente(s, id);
    if o.mock {
      assert Encolhe(t, Iniciado(t));
      ShrinkKeepsUnico(t, Iniciado(t));
    } else {
      StartedKeepsUnico(t);
    }
  }

  lemma StepKeepsUnico(s: Cliente, e: Ocorrencia)
    requires Inv(s) && Unico(s) && Possivel(s, e) && Fiel(s, e) && Oportuno(s, e)
    ensures Unico(Passo(s, e))
  {
    match e
    case Conectar(o) => ConnectKeepsUnico(s, o);
    case Desconectar => StoppedKeepsUnico(s);
    case Dispara(id) => FiredKeepsUnico(s, id);
    case Responde(c, r, x) => AnsweredKeepsUnico(s, c, r, x);
    case Chega(_) => ShrinkKeepsUnico(s, Passo(s, e));
    case Termina(c, x) =>
      EndedLeavesNone(s, c);
      ScheduledKeepsUnico(SemFluxo(s, c), x);
    case Falha(c, aborto, x) =>
      if aborto {
        ShrinkKeepsUnico(s, Passo(s, e));
      } else {
        EndedLeavesNone(s, c);
        ScheduledKeepsUnico(SemFluxo(s, c), x);
      }
  }

  /** A stream that is no longer the controller's, whatever the caller does, stays active until
      the network ends it. */
  ghost predicate Encerra(e: Ocorrencia, c: nat) {
    match e
    case Responde(d, r, _) => d == c && !r.Ok?
    case Termina(d, _) => d == c
    case Falha(d, _, _) => d == c
    case _ => false
  }

  lemma StepKeepsLeak(s: Cliente, e: Ocorrencia, c: nat)
    requires Inv(s) && Possivel(s, e) && Ativo(s, c) && s.controle != Some(c) && !Encerra(e, c)
    ensures Ativo(Passo(s, e), c) && Passo(s, e).controle != Some(c)
  {
  }

  lemma {:induction false} LeaksUntilItEnds(run: seq<Cliente>, es: seq<Ocorrencia>, i: nat, j: nat, c: nat)
    requires IsRun(run, es) && i <= j < |run| && Ativo(run[i], c) && run[i].controle != Some(c)
    requires forall k :: i <= k < j ==> !Encerra(es[k], c)
    ensures Ativo(run[j], c) && run[j].controle != Some(c)
  {
    if i < j {
      LeaksUntilItEnds(run, es, i, j - 1, c);
      RunKeepsInv(run, es, j - 1);
      assert StepBy(run[j - 1], run[j], es[j - 1]);
      StepKeepsLeak(run[j - 1], es[j - 1], c);
    }
  }

  /** A stream active at a second connect stays active after it, through every later connect and
      disconnect, until the network ends it. */
  lemma SecondConnectLeaks(run: seq<Cliente>, es: seq<Ocorrencia>, i: nat, j: nat, c: nat)
    requires IsRun(run, es) && i < j < |run| && es[i].Conectar? && !es[i].opcoes.mock && Ativo(run[i], c)
    requires forall k :: i < k < j ==> !Encerra(es[k], c)
    ensures Ativo(run[j], c)
  {
    RunKeepsInv(run, es, i);
    assert StepBy(run[i], run[i + 1], es[i]);
    assert c < run[i].proximo;
    LeaksUntilItEnds(run, es, i + 1, j, c);
  }

  /** A connect keeps one stream at a time exactly when it has a simulation token or finds nothing
      active. Otherwise the stream it finds stays active beside the new one, out of the controller's reach. */
  lemma ConnectIsSafeIff(s: Cliente, o: Opcoes)
    requires Inv(s) && Unico(s)
    ensures Unico(Passo(s, Conectar(o))) <==> Oportuno(s, Conectar(o))
    ensures !Oportuno(s, Conectar(o)) ==>
              exists c: nat :: Ativo(s, c) && Ativo(Passo(s, Conectar(o)), c)
                            && Passo(s, Conectar(o)).controle != Some(c)
  {
    if Oportuno(s, Conectar(o)) {
      ConnectKeepsUnico(s, o);
    } else {
      var c: nat :| Ativo(s, c);
      assert c < s.proximo;
      assert Ativo(Passo(s, Conectar(o)), c);
    }
  }

  lemma {:induction false} OpportuneKeepsUnico(run: seq<Cliente>, es: seq<Ocorrencia>, i: nat)
    requires IsRun(run, es) && i < |run|
    requires forall k :: 0 <= k < i ==>
               StepBy(run[k], run[k + 1], es[k]) && Fiel(run[k], es[k]) && Oportuno(run[k], es[k])
    ensures Unico(run[i])
  {
    if i > 0 {
      OpportuneKeepsUnico(run, es, i - 1);
      RunKeepsInv(run, es, i - 1);
      assert StepBy(run[i - 1], run[i], es[i - 1]);
      StepKeepsUnico(run[i - 1], es[i - 1]);
    }
  }

  /** Throughout a run at most one stream is active, never beside a pending reconnection, and none
      after a disconnect, which the status then shows, exactly when every connect with a real token
      was made with nothing active. */
  lemma OneStreamAtATime(run: seq<Cliente>, es: seq<Ocorrencia>, i: nat)
    requires IsRun(run, es) && i < |run|
    requires forall k :: 0 <= k < i ==> StepBy(run[k], run[k + 1], es[k]) && Fiel(run[k], es[k])
    ensures (forall k :: 0 <= k <= i ==> Unico(run[k])) <==> (forall k :: 0 <= k < i ==> Oportuno(run[k], es[k]))
  {
    if forall k :: 0 <= k < i ==> Oportuno(run[k], es[k]) {
      forall k | 0 <= k <= i ensures Unico(run[k]) {
        OpportuneKeepsUnico(run, es, k);
      }
    } else {
      var k :| 0 <= k < i && !Oportuno(run[k], es[k]);
      RunKeepsInv(run, es, k);
      assert StepBy(run[k], run[k + 1], es[k]);
      if Unico(run[k]) {
        ConnectIsSafeIff(run[k], es[k].opcoes);
      }
    }
  }
}
