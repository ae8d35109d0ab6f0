/** The controller's writing side: the handshake, the heartbeat task and the event task write to
    one response under a semaphore, a piece at a time, until the request is cancelled. Read back
    by the client at any moment, whatever the interleaving. */
module SseWriter {
  import opened Sequences
  import opened SseFraming
  import opened SseStream
  import opened Wrappers

  datatype Escrita = Escrita(tarefa: nat, mensagem: Message)

  /** `filas` are the messages each task has yet to write, `atual` the one being written or
      abandoned, `texto` its text, of which `escritos` characters are on the wire. */
  datatype State = State(
    wire: string, dono: Option<nat>, atual: Option<Message>, texto: string, escritos: nat,
    filas: seq<seq<Message>>, feitas: seq<Escrita>, cancelado: bool)

  datatype Step = Adquirir(tarefa: nat) | Escrever(n: nat) | Liberar | Cancelar

  /** The semaphore is left at the end of the message or, once cancelled, at any point. */
  ghost predicate Allowed(s: State, step: Step) {
    match step
    case Adquirir(t) => !s.cancelado && s.dono.None? && t < |s.filas| && s.filas[t] != []
    case Escrever(n) => !s.cancelado && s.dono.Some? && s.atual.Some? && s.escritos + n <= |s.texto|
    case Liberar =>
      && s.dono.Some? && s.dono.value < |s.filas| && s.filas[s.dono.value] != [] && s.atual.Some?
      && (s.cancelado || s.escritos == |s.texto|)
    case Cancelar => true
  }

  ghost function Take(s: State, step: Step): State
    requires Allowed(s, step)
  {
    match step
    case Adquirir(t) => s.(dono := Some(t), atual := Some(s.filas[t][0]), texto := Frame(s.filas[t][0]), escritos := 0)
    case Escrever(n) =>
      s.(wire := s.wire + s.texto[s.escritos..s.escritos + n], escritos := s.escritos + n)
    case Liberar =>
      if s.escritos == |s.texto| then
        var t := s.dono.value;
        s.(dono := None, atual := None, escritos := 0,
           filas := s.filas[t := s.filas[t][1..]], feitas := s.feitas + [Escrita(t, s.atual.value)])
      else s.(dono := None)
    case Cancelar => s.(cancelado := true)
  }

  ghost predicate IsRun(run: seq<State>, steps: seq<Step>) {
    && |run| == |steps| + 1
    && run[0].wire == "" && run[0].dono.None? && run[0].atual.None? && run[0].feitas == []
    && forall i :: 0 <= i < |steps| ==> StepBy(run[i], run[i + 1], steps[i])
  }

  ghost predicate StepBy(s: State, s': State, step: Step) {
    Allowed(s, step) && s' == Take(s, step)
  }

  // ---------------------------------------------------------------- what is on the wire

  ghost function Mensagens(feitas: seq<Escrita>): (r: seq<Message>)
    ensures |r| == |feitas|
  {
    if feitas == [] then [] else Mensagens(Init(feitas)) + [Last(feitas).mensagem]
  }

  ghost function Parcial(s: State): string
    requires s.atual.Some? ==> s.escritos <= |s.texto|
  {
    if s.atual.Some? then s.texto[..s.escritos] else ""
  }

  /** The wire holds the finished messages, whole, and what there is of one other. */
  ghost predicate Inv(s: State) {
    && (s.atual.Some? ==> s.texto == Frame(s.atual.value) && s.escritos <= |s.texto|)
    && s.wire == Wire(Mensagens(s.feitas)) + Parcial(s)
    && (s.dono.None? && !s.cancelado ==> s.atual.None?)
    && (s.dono.None? && s.atual.Some? ==> s.escritos < |s.texto|)
    && (s.dono.Some? ==>
          s.dono.value < |s.filas| && s.filas[s.dono.value] != [] && s.atual == Some(s.filas[s.dono.value][0]))
  }

  lemma {:induction false} WireAppend(msgs: seq<Message>, m: Message)
    ensures Wire(msgs + [m]) == Wire(msgs) + Frame(m)
  {
    if msgs == [] {
      assert [m][1..] == [];
    } else {
      assert (msgs + [m])[1..] == msgs[1..] + [m];
      WireAppend(msgs[1..], m);
    }
  }

  lemma WrittenNext(feitas: seq<Escrita>, e: Escrita)
    ensures Mensagens(feitas + [e]) == Mensagens(feitas) + [e.mensagem]
  {
    assert Init(feitas + [e]) == feitas;
  }

  lemma PieceJoins(wire: string, before: string, f: string, a: nat, b: nat)
    requires a <= b <= |f| && wire == before + f[..a]
    ensures wire + f[a..b] == before + f[..b]
  {
    assert f[..b] == f[..a] + f[a..b];
  }

  lemma WholeJoins(before: string, f: string, a: nat)
    requires a == |f|
    ensures before + f[..a] == (before + f) + ""
  {
    assert f[..a] == f;
  }

  lemma WritingKeepsInv(s: State, n: nat)
    requires Inv(s) && Allowed(s, Escrever(n))
    ensures Inv(Take(s, Escrever(n)))
  {
    var s' := Take(s, Escrever(n));
    PieceJoins(s.wire, Wire(Mensagens(s.feitas)), s.texto, s.escritos, s'.escritos);
    assert Parcial(s') == s.texto[..s'.escritos];
    assert s'.wire == Wire(Mensagens(s'.feitas)) + Parcial(s');
  }

  lemma FinishedWire(feitas: seq<Escrita>, e: Escrita)
    ensures Wire(Mensagens(feitas + [e])) == Wire(Mensagens(feitas)) + Frame(e.mensagem)
  {
    WrittenNext(feitas, e);
    WireAppend(Mensagens(feitas), e.mensagem);
  }

  lemma ReleasingKeepsInv(s: State)
    requires Inv(s) && Allowed(s, Liberar)
    ensures Inv(Take(s, Liberar))
  {
    if s.escritos == |s.texto| {
      FinishedWire(s.feitas, Escrita(s.dono.value, s.atual.value));
      WholeJoins(Wire(Mensagens(s.feitas)), s.texto, s.escritos);
    }
  }

  lemma StepKeepsInv(s: State, step: Step)
    requires Inv(s) && Allowed(s, step)
    ensures Inv(Take(s, step))
  {
    match step
    case Adquirir(t) =>
      assert Parcial(s) == Parcial(Take(s, step)) == "";
    case Escrever(n) => WritingKeepsInv(s, n);
    case Liberar => ReleasingKeepsInv(s);
    case Cancelar =>
  }

  lemma {:induction false} RunKeepsInv(run: seq<State>, steps: seq<Step>, i: nat)
    requires IsRun(run, steps) && i < |run|
    ensures Inv(run[i])
  {
    if i > 0 {
      RunKeepsInv(run, steps, i - 1);
      assert StepBy(run[i - 1], run[i], steps[i - 1]);
      StepKeepsInv(run[i - 1], steps[i - 1]);
    }
  }

  // ---------------------------------------------------------------- progress

  /** Whenever the semaphore is free and the request not cancelled, the first message of any task can
      go out, whole and at once; it is then on the wire, done, and off its queue, and nothing else changed. */
  lemma MessageGoesOut(s: State, t: nat) returns (s1: State, s2: State, s': State)
    requires Inv(s) && !s.cancelado && s.dono.None? && t < |s.filas| && s.filas[t] != []
    ensures var m := s.filas[t][0];
            && StepBy(s, s1, Adquirir(t)) && StepBy(s1, s2, Escrever(|Frame(m)|)) && StepBy(s2, s', Liberar)
            && s'.wire == s.wire + Frame(m)
            && s'.feitas == s.feitas + [Escrita(t, m)]
            && s'.filas == s.filas[t := s.filas[t][1..]]
            && s'.dono == None && s'.atual == None && !s'.cancelado
  {
    var m := s.filas[t][0];
    s1 := Take(s, Adquirir(t));
    s2 := Take(s1, Escrever(|Frame(m)|));
    assert s1.texto[0..|Frame(m)|] == Frame(m);
    s' := Take(s2, Liberar);
  }

  /** Nor is a task ever stuck with the semaphore: it can write what is left of its message and
      leave, or, once cancelled, leave at once. */
  lemma OwnerCanLeave(s: State)
    requires Inv(s) && s.dono.Some?
    ensures s.cancelado || s.escritos == |s.texto| ==> Allowed(s, Liberar) && Take(s, Liberar).dono == None
    ensures !s.cancelado ==>
              && Allowed(s, Escrever(|s.texto| - s.escritos))
              && Allowed(Take(s, Escrever(|s.texto| - s.escritos)), Liberar)
  {
  }

  // ---------------------------------------------------------------- order of the messages

  ghost function Da(feitas: seq<Escrita>, t: nat): seq<Message> {
    if feitas == [] then []
    else Da(Init(feitas), t) + if Last(feitas).tarefa == t then [Last(feitas).mensagem] else []
  }

  lemma DaNext(feitas: seq<Escrita>, e: Escrita, t: nat)
    ensures Da(feitas + [e], t) == Da(feitas, t) + if e.tarefa == t then [e.mensagem] else []
  {
    assert Init(feitas + [e]) == feitas;
  }

  lemma StepKeepsOrder(s: State, step: Step, t: nat)
    requires Inv(s) && Allowed(s, step) && t < |s.filas|
    ensures |Take(s, step).filas| == |s.filas|
    ensures Da(Take(s, step).feitas, t) + Take(s, step).filas[t] == Da(s.feitas, t) + s.filas[t]
  {
    if step.Liberar? && s.escritos == |s.texto| {
      DaNext(s.feitas, Escrita(s.dono.value, s.atual.value), t);
      if s.dono.value == t {
        HeadMoves(Da(s.feitas, t), s.filas[t]);
      } else {
        EmptyLast(Da(s.feitas, t));
      }
    }
  }

  /** Every task's messages are written in its own order, none lost, repeated or out of turn. */
  lemma {:induction false} TasksKeepOrder(run: seq<State>, steps: seq<Step>, i: nat, t: nat)
    requires IsRun(run, steps) && i < |run| && t < |run[0].filas|
    ensures |run[i].filas| == |run[0].filas|
    ensures Da(run[i].feitas, t) + run[i].filas[t] == run[0].filas[t]
  {
    if i > 0 {
      TasksKeepOrder(run, steps, i - 1, t);
      OrderNext(run, steps, i, t);
    }
  }

  lemma OrderNext(run: seq<State>, steps: seq<Step>, i: nat, t: nat)
    requires IsRun(run, steps) && 0 < i < |run| && t < |run[i - 1].filas|
    ensures |run[i].filas| == |run[i - 1].filas|
    ensures Da(run[i].feitas, t) + run[i].filas[t] == Da(run[i - 1].feitas, t) + run[i - 1].filas[t]
  {
    RunKeepsInv(run, steps, i - 1);
    assert StepBy(run[i - 1], run[i], steps[i - 1]);
    StepKeepsOrder(run[i - 1], steps[i - 1], t);
  }

  // ---------------------------------------------------------------- what the client sees

  /** The messages written to the end, the current one included as soon as it is. */
  ghost function Inteiras(s: State): seq<Message> {
    Mensagens(s.feitas) + if s.atual.Some? && s.escritos == |s.texto| then [s.atual.value] else []
  }

  lemma {:induction false} SplitAfter(msgs: seq<Message>, rest: string)
    requires forall m :: m in msgs ==> WellFormed(m)
    ensures Split(Wire(msgs) + rest) == Bodies(msgs) + Split(rest)
  {
    if msgs == [] {
      assert Wire(msgs) + rest == rest;
      EmptyFirst(Split(rest));
    } else {
      BodyUnbroken(msgs[0]);
      assert Wire(msgs) + rest == Body(msgs[0]) + "\n\n" + (Wire(msgs[1..]) + rest);
      SplitFrame(Body(msgs[0]), Wire(msgs[1..]) + rest);
      SplitAfter(msgs[1..], rest);
      Regroup([Body(msgs[0])], Bodies(msgs[1..]), Split(rest));
    }
  }

  /** An unfinished message has no end of block yet. */
  lemma PartUnsplit(m: Message, k: nat)
    requires WellFormed(m) && k < |Frame(m)|
    ensures Split(Frame(m)[..k]) == [Frame(m)[..k]]
  {
    var part := Frame(m)[..k];
    BodyUnbroken(m);
    var i := FirstBreak(part);
    if i < |part| {
      assert BreakAt(Frame(m), i);
      BreakBeyond(Body(m), "\n\n", i);
    }
  }

  ghost predicate TodasBem(s: State) {
    && (forall e :: e in s.feitas ==> WellFormed(e.mensagem))
    && (forall t, m :: 0 <= t < |s.filas| && m in s.filas[t] ==> WellFormed(m))
    && (s.atual.Some? ==> WellFormed(s.atual.value))
  }

  lemma StepKeepsBem(s: State, step: Step)
    requires TodasBem(s) && Allowed(s, step)
    ensures TodasBem(Take(s, step))
  {
    match step
    case Adquirir(t) =>
      assert s.filas[t][0] in s.filas[t];
    case _ =>
  }

  lemma {:induction false} MensagensBem(feitas: seq<Escrita>)
    requires forall e :: e in feitas ==> WellFormed(e.mensagem)
    ensures forall m :: m in Mensagens(feitas) ==> WellFormed(m)
  {
    if feitas != [] {
      assert feitas == Init(feitas) + [Last(feitas)];
      MensagensBem(Init(feitas));
    }
  }

  lemma {:induction false} BodiesAppend(msgs: seq<Message>, m: Message)
    ensures Bodies(msgs + [m]) == Bodies(msgs) + [Body(m)]
  {
    if msgs == [] {
      assert [m][1..] == [];
    } else {
      assert (msgs + [m])[1..] == msgs[1..] + [m];
      BodiesAppend(msgs[1..], m);
    }
  }

  lemma WholeSplit(m: Message)
    requires WellFormed(m)
    ensures Split(Frame(m)) == [Body(m)] + [""]
  {
    BodyUnbroken(m);
    SplitFrame(Body(m), "");
    assert Body(m) + "\n\n" + "" == Frame(m);
  }

  lemma NoneHalfway(msgs: seq<Message>)
    requires forall m :: m in msgs ==> WellFormed(m)
    ensures Init(Split(Wire(msgs) + "")) == Bodies(msgs)
  {
    SplitAfter(msgs, "");
    InitLastConcat(Bodies(msgs), [""]);
  }

  lemma OneHalfway(msgs: seq<Message>, m: Message, k: nat)
    requires (forall x :: x in msgs ==> WellFormed(x)) && WellFormed(m) && k < |Frame(m)|
    ensures Init(Split(Wire(msgs) + Frame(m)[..k])) == Bodies(msgs)
  {
    var part := Frame(m)[..k];
    SplitAfter(msgs, part);
    PartUnsplit(m, k);
    InitLastConcat(Bodies(msgs), [part]);
  }

  lemma OneJustWritten(msgs: seq<Message>, m: Message)
    requires (forall x :: x in msgs ==> WellFormed(x)) && WellFormed(m)
    ensures Init(Split(Wire(msgs) + Frame(m))) == Bodies(msgs + [m])
  {
    SplitAfter(msgs, Frame(m));
    WholeSplit(m);
    BodiesAppend(msgs, m);
    Regroup(Bodies(msgs), [Body(m)], [""]);
    InitLastConcat(Bodies(msgs) + [Body(m)], [""]);
  }

  /** The blocks that are complete on the wire are the bodies of the messages written to the end. */
  lemma CompleteBlocks(s: State)
    requires Inv(s) && TodasBem(s)
    ensures Init(Split(s.wire)) == Bodies(Inteiras(s))
    ensures forall m :: m in Inteiras(s) ==> WellFormed(m)
  {
    var msgs := Mensagens(s.feitas);
    MensagensBem(s.feitas);
    EmptyLast(msgs);
    if s.atual.None? {
      NoneHalfway(msgs);
    } else if s.escritos < |s.texto| {
      OneHalfway(msgs, s.atual.value, s.escritos);
    } else {
      WholeFrame(s.texto);
      OneJustWritten(msgs, s.atual.value);
    }
  }

  lemma WholeFrame(f: string)
    ensures f[..|f|] == f
  {
  }

  /** Reading what is on the wire, cut into any chunks, the client has dispatched exactly the
      events written to the end, in the order they were written. */
  lemma ClientSees(s: State, chunks: seq<string>, reserva: string)
    requires Inv(s) && TodasBem(s) && Concat(chunks) == s.wire
    ensures Dispatch(Init(Split(Concat(chunks))), reserva) == EventsIn(Inteiras(s))
  {
    CompleteBlocks(s);
    DispatchBodies(Inteiras(s), reserva);
  }

  // ---------------------------------------------------------------- the published events

  /** Only task t writes events. */
  ghost predicate SoComentarios(s: State, t: nat) {
    && (forall e :: e in s.feitas && e.tarefa != t ==> e.mensagem.Comentario?)
    && (forall u, m :: 0 <= u < |s.filas| && u != t && m in s.filas[u] ==> m.Comentario?)
  }

  lemma StepKeepsComments(s: State, step: Step, t: nat)
    requires Inv(s) && SoComentarios(s, t) && Allowed(s, step)
    ensures SoComentarios(Take(s, step), t)
  {
    if step.Liberar? {
      assert s.filas[s.dono.value][0] in s.filas[s.dono.value];
    }
  }

  lemma {:induction false} RunKeepsForm(run: seq<State>, steps: seq<Step>, i: nat, t: nat)
    requires IsRun(run, steps) && i < |run| && TodasBem(run[0]) && SoComentarios(run[0], t)
    ensures TodasBem(run[i]) && SoComentarios(run[i], t)
  {
    if i > 0 {
      RunKeepsForm(run, steps, i - 1, t);
      RunKeepsInv(run, steps, i - 1);
      assert StepBy(run[i - 1], run[i], steps[i - 1]);
      StepKeepsBem(run[i - 1], steps[i - 1]);
      StepKeepsComments(run[i - 1], steps[i - 1], t);
    }
  }

  lemma {:induction false} EventsConcat(a: seq<Message>, b: seq<Message>)
    ensures EventsIn(a + b) == EventsIn(a) + EventsIn(b)
  {
    if a == [] {
      assert a + b == b;
    } else {
      assert (a + b)[1..] == a[1..] + b;
      EventsConcat(a[1..], b);
      Regroup(if a[0].Evt? then [a[0].e] else [], EventsIn(a[1..]), EventsIn(b));
    }
  }

  lemma OneEvent(m: Message)
    ensures EventsIn([m]) == if m.Evt? then [m.e] else []
  {
    assert [m][1..] == [];
  }

  /** Comments aside, what was written is what task t wrote. */
  lemma {:induction false} EventsOfTask(feitas: seq<Escrita>, t: nat)
    requires forall e :: e in feitas && e.tarefa != t ==> e.mensagem.Comentario?
    ensures EventsIn(Mensagens(feitas)) == EventsIn(Da(feitas, t))
  {
    if feitas != [] {
      var antes, e := Init(feitas), Last(feitas);
      assert feitas == antes + [e];
      EventsOfTask(antes, t);
      EventsConcat(Mensagens(antes), [e.mensagem]);
      EventsConcat(Da(antes, t), [e.mensagem]);
      OneEvent(e.mensagem);
      assert Da(antes, t) + [] == Da(antes, t);
    }
  }

  /** What task t still has to deliver: its queue, less a message just written to the end. */
  ghost function Restantes(s: State, t: nat): seq<Message>
    requires t < |s.filas|
  {
    if s.dono == Some(t) && s.filas[t] != [] && s.escritos == |s.texto| then s.filas[t][1..] else s.filas[t]
  }

  lemma MessageMovesOver(msgs: seq<Message>, escritas: seq<Message>, fila: seq<Message>)
    requires EventsIn(msgs) == EventsIn(escritas) && fila != []
    ensures EventsIn(msgs + [fila[0]]) + EventsIn(fila[1..]) == EventsIn(escritas + fila)
  {
    EventsConcat(msgs, [fila[0]]);
    EventsConcat(escritas, fila);
    EventsConcat([fila[0]], fila[1..]);
    assert [fila[0]] + fila[1..] == fila;
    Regroup(EventsIn(msgs), EventsIn([fila[0]]), EventsIn(fila[1..]));
  }

  lemma CommentAdds(msgs: seq<Message>, m: Message)
    requires m.Comentario?
    ensures EventsIn(msgs + [m]) == EventsIn(msgs)
  {
    EventsConcat(msgs, [m]);
    OneEvent(m);
    EmptyLast(EventsIn(msgs));
  }

  lemma WholeAndRest(s: State, t: nat)
    requires Inv(s) && SoComentarios(s, t) && t < |s.filas|
    ensures EventsIn(Inteiras(s)) + EventsIn(Restantes(s, t)) == EventsIn(Da(s.feitas, t) + s.filas[t])
  {
    var msgs := Mensagens(s.feitas);
    EventsOfTask(s.feitas, t);
    EmptyLast(msgs);
    if s.dono == Some(t) && s.escritos == |s.texto| {
      MessageMovesOver(msgs, Da(s.feitas, t), s.filas[t]);
    } else {
      EventsConcat(Da(s.feitas, t), s.filas[t]);
      if s.dono.Some? && s.escritos == |s.texto| {
        assert s.atual.value in s.filas[s.dono.value];
        CommentAdds(msgs, s.atual.value);
      }
    }
  }

  /** At every moment of every interleaving, and however the text is cut, the listeners have
      received a prefix of the published events, in order: exactly those whose message is written
      to the end. Nothing is lost, repeated, merged or invented by the heartbeats in between. */
  lemma ListenersGetPrefix(run: seq<State>, steps: seq<Step>, i: nat, t: nat, chunks: seq<string>, reserva: string)
    requires IsRun(run, steps) && i < |run| && t < |run[0].filas|
    requires TodasBem(run[0]) && SoComentarios(run[0], t)
    requires Concat(chunks) == run[i].wire
    ensures |run[i].filas| == |run[0].filas|
    ensures Dispatch(Init(Split(Concat(chunks))), reserva) + EventsIn(Restantes(run[i], t)) == EventsIn(run[0].filas[t])
  {
    RunKeepsInv(run, steps, i);
    RunKeepsForm(run, steps, i, t);
    TasksKeepOrder(run, steps, i, t);
    ClientSees(run[i], chunks, reserva);
    WholeAndRest(run[i], t);
  }
}
