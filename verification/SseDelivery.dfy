/** Which sequences of events reach the listeners whole: exactly those of representable events.
    A payload with a newline is taken apart by the client, and its pieces may even form events of
    their own, but never so that everything that was sent arrives. */
module SseDelivery {
  import opened Sequences
  import opened SseFraming
  import opened SseStream
  import opened Wrappers

  /** What a message may leave at the end of its text for the next block to begin with. */
  predicate Sobra(c: string) {
    c == "" || c == "\n"
  }

  predicate EndsBlank(s: string) {
    |s| >= 2 && BreakAt(s, |s| - 2)
  }

  /** Text that ends with a blank line leaves at most one newline over. */
  lemma {:induction false} LastPieceShort(s: string)
    requires EndsBlank(s)
    ensures Sobra(Last(Split(s)))
    decreases |s|
  {
    var i := FirstBreak(s);
    assert i <= |s| - 2;
    var rest := s[i + 2..];
    if |rest| >= 2 {
      assert BreakAt(rest, |rest| - 2);
      LastPieceShort(rest);
    } else if |rest| == 1 {
      assert rest == "\n";
    }
  }

  lemma {:induction false} LeadingNewline(block: string, reserva: string)
    ensures ParseBlock("\n" + block, reserva) == ParseBlock(block, reserva)
  {
    LinesOfJoin("", block);
    assert "" + "\n" + block == "\n" + block;
    TakeCons(Fields("", "", ""), "", LinesOf(block));
  }

  lemma CarriedBlock(c: string, block: string, reserva: string)
    requires Sobra(c)
    ensures EventsOf(c + block, reserva) == EventsOf(block, reserva)
  {
    if c == "" {
      assert c + block == block;
    } else {
      LeadingNewline(block, reserva);
    }
  }

  lemma CarriedUnbroken(c: string, head: string)
    requires Sobra(c) && Unbroken(head) && head != "" && head[0] != '\n'
    ensures Unbroken(c + head)
  {
    if c == "" {
      assert c + head == head;
    } else {
      NewlineFirst(head);
    }
  }

  /** The pieces of an event's text, whatever its payload. */
  lemma PiecesAfter(c: string, e: Evento)
    requires Sobra(c) && EventShape(e)
    ensures var parts := Split(e.payload + "\n\n");
            && |parts| > 1
            && Init(Split(c + Frame(Evt(e)))) == [c + EventBody(e.(payload := parts[0]))] + Init(parts[1..])
  {
    var x := e.payload + "\n\n";
    var parts := Split(x);
    var head := EventBody(e.(payload := ""));
    HeaderUnbroken(e, "");
    CarriedUnbroken(c, head);
    HeaderFirst(e);
    Regroup(c, head, x);
    SplitHeader(c + head, x);
    FirstPiece(e.payload);
    BodyEnds(e, parts[0]);
    Regroup(c, head, parts[0]);
    FirstOfMany(Split((c + head) + x));
  }

  ghost function Despacha(text: string, reserva: string): seq<Evento> {
    Dispatch(Init(Split(text)), reserva)
  }

  lemma OneLinePieces(p: string)
    requires NoNewline(p)
    ensures Split(p + "\n\n") == [p] + [""]
  {
    NoNewlineUnbroken(p);
    SplitFrame(p, "");
    assert p + "\n\n" + "" == p + "\n\n";
  }

  lemma RepresentableDelivers(c: string, e: Evento, reserva: string)
    requires Sobra(c) && Representable(e)
    ensures Despacha(c + Frame(Evt(e)), reserva) == [e]
  {
    PiecesAfter(c, e);
    OneLinePieces(e.payload);
    assert e.(payload := e.payload) == e;
    assert Init([""]) == [];
    FlatMapCons(Parser(reserva), c + EventBody(e), []);
    CarriedBlock(c, EventBody(e), reserva);
    EventParses(e, reserva);
  }

  lemma CommentDelivers(c: string, texto: string, reserva: string)
    requires Sobra(c) && NoNewline(texto)
    ensures Despacha(c + Frame(Comentario(texto)), reserva) == []
  {
    var line := ":" + texto;
    NoNewlineUnbroken(line);
    CarriedUnbroken(c, line);
    SplitFrame(c + line, "");
    assert c + Frame(Comentario(texto)) == (c + line) + "\n\n" + "";
    InitLastConcat([c + line], [""]);
    CarriedBlock(c, line, reserva);
    CommentLine(texto);
    OneLineBlock(line, reserva);
    FlatMapCons(Parser(reserva), c + line, []);
  }

  /** Nothing dispatched from a broken payload is as long as it. */
  lemma BrokenDeliversLess(c: string, e: Evento, reserva: string)
    requires Sobra(c) && OneLine(reserva) && reserva != "" && EventShape(e) && !NoNewline(e.payload)
    ensures forall v :: v in Despacha(c + Frame(Evt(e)), reserva) ==> |v.payload| < |e.payload|
  {
    var parts := Split(e.payload + "\n\n");
    PiecesAfter(c, e);
    FirstPiece(e.payload);
    var first := EventBody(e.(payload := parts[0]));
    FlatMapCons(Parser(reserva), c + first, Init(parts[1..]));
    CarriedBlock(c, first, reserva);
    PayloadShrinks(e.(payload := parts[0]));
    DispatchShapes(Init(parts[1..]), reserva, |e.payload|);
  }

  // ---------------------------------------------------------------- a whole sequence, text by text

  /** What the client dispatches for these messages, after what the text before them left over. */
  ghost function Recebidos(c: string, msgs: seq<Message>, reserva: string): seq<Evento> {
    Despacha(c + Wire(msgs), reserva)
  }

  lemma FrameEndsBlank(c: string, m: Message)
    ensures EndsBlank(c + Frame(m))
  {
    var body := c + Body(m);
    assert c + Frame(m) == body + "\n\n";
    assert BreakAt(body + "\n\n", |body|);
  }

  /** The first message is dispatched on its own, and leaves at most a newline to the others. */
  lemma FirstThenRest(c: string, msgs: seq<Message>, reserva: string) returns (c': string)
    requires Sobra(c) && msgs != []
    ensures Sobra(c')
    ensures Recebidos(c, msgs, reserva) == Despacha(c + Frame(msgs[0]), reserva) + Recebidos(c', msgs[1..], reserva)
  {
    var f, rest := c + Frame(msgs[0]), Wire(msgs[1..]);
    FrameEndsBlank(c, msgs[0]);
    LastPieceShort(f);
    c' := Last(Split(f));
    Regroup(c, Frame(msgs[0]), rest);
    SplitAppend(f, rest);
    InitLastConcat(Init(Split(f)), Split(c' + rest));
    FlatMapConcat(Parser(reserva), Init(Split(f)), Init(Split(c' + rest)));
  }

  ghost predicate Comentarios(msgs: seq<Message>) {
    forall m :: m in msgs && m.Comentario? ==> NoNewline(m.texto)
  }

  ghost predicate Representaveis(msgs: seq<Message>) {
    forall m :: m in msgs && m.Evt? ==> Representable(m.e)
  }

  lemma {:induction false} NothingReceived(c: string, reserva: string)
    requires Sobra(c)
    ensures Recebidos(c, [], reserva) == []
  {
    assert c + Wire([]) == c;
    assert Split(c) == [c];
    assert Init([c]) == [];
  }

  /** Every event dispatched comes out of the text of one message. */
  lemma {:induction false} SourceOf(c: string, msgs: seq<Message>, v: Evento, reserva: string)
    returns (c': string, m: Message)
    requires Sobra(c) && v in Recebidos(c, msgs, reserva)
    ensures Sobra(c') && m in msgs && v in Despacha(c' + Frame(m), reserva)
    decreases |msgs|
  {
    if msgs == [] {
      NothingReceived(c, reserva);
    } else {
      var next := FirstThenRest(c, msgs, reserva);
      if v in Despacha(c + Frame(msgs[0]), reserva) {
        c', m := c, msgs[0];
      } else {
        c', m := SourceOf(next, msgs[1..], v, reserva);
      }
    }
  }

  // ---------------------------------------------------------------- what can arrive at all

  /** Data that holds no newline is one trimmed line. */
  predicate Inteiro(dados: string) {
    NoNewline(dados) ==> Trimmed(dados)
  }

  lemma TakeLineInteiro(f: Fields, raw: string)
    requires Inteiro(f.dados)
    ensures Inteiro(TakeLine(f, raw).dados)
  {
    match ReadLine(raw)
    case Dados(v) =>
      DadosTrimmed(raw);
      if f.dados != "" {
        assert (f.dados + "\n" + v)[|f.dados|] == '\n';
      }
    case _ =>
  }

  lemma DadosTrimmed(raw: string)
    ensures ReadLine(raw).Dados? ==> Trimmed(ReadLine(raw).v)
  {
  }

  lemma {:induction false} TakeLinesInteiro(f: Fields, lines: seq<string>)
    requires Inteiro(f.dados)
    ensures Inteiro(TakeLines(f, lines).dados)
  {
    if lines != [] {
      TakeLinesInteiro(f, Init(lines));
      TakeLineInteiro(TakeLines(f, Init(lines)), Last(lines));
    }
  }

  lemma ParsedInteiro(block: string, reserva: string)
    ensures forall v :: v in EventsOf(block, reserva) ==> Inteiro(v.payload)
  {
    TakeLinesInteiro(Fields("", "", ""), LinesOf(block));
  }

  lemma {:induction false} DispatchedInteiro(blocks: seq<string>, reserva: string)
    ensures forall v :: v in Dispatch(blocks, reserva) ==> Inteiro(v.payload)
  {
    if blocks != [] {
      DispatchedInteiro(Init(blocks), reserva);
      ParsedInteiro(Last(blocks), reserva);
    }
  }

  /** An event that arrives is representable, or else its payload holds a newline. */
  lemma ArrivedForm(text: string, v: Evento, reserva: string)
    requires OneLine(reserva) && reserva != "" && v in Despacha(text, reserva)
    ensures EventShape(v) && (NoNewline(v.payload) ==> Representable(v))
  {
    SplitFits(text);
    DispatchShapes(Init(Split(text)), reserva, |text|);
    DispatchedInteiro(Init(Split(text)), reserva);
  }

  // ---------------------------------------------------------------- the exact condition

  lemma {:induction false} RepresentableArrive(c: string, msgs: seq<Message>, reserva: string)
    requires Sobra(c) && Comentarios(msgs) && Representaveis(msgs)
    ensures Recebidos(c, msgs, reserva) == EventsIn(msgs)
    decreases |msgs|
  {
    if msgs == [] {
      NothingReceived(c, reserva);
    } else {
      var next := FirstThenRest(c, msgs, reserva);
      RepresentableArrive(next, msgs[1..], reserva);
      match msgs[0]
      case Evt(e) => RepresentableDelivers(c, e, reserva);
      case Comentario(texto) => CommentDelivers(c, texto, reserva);
    }
  }

  lemma {:induction false} InEventsIn(msgs: seq<Message>, e: Evento)
    ensures e in EventsIn(msgs) <==> Evt(e) in msgs
  {
    if msgs != [] {
      assert msgs == [msgs[0]] + msgs[1..];
      InEventsIn(msgs[1..], e);
    }
  }

  /** Of the events that are not representable, one with the longest payload. */
  lemma {:induction false} LongestBroken(msgs: seq<Message>) returns (a: Evento)
    requires !Representaveis(msgs)
    ensures Evt(a) in msgs && !Representable(a)
    ensures forall m :: m in msgs && m.Evt? && !Representable(m.e) ==> |m.e.payload| <= |a.payload|
  {
    var first, rest := msgs[0], msgs[1..];
    assert msgs == [first] + rest;
    if Representaveis(rest) {
      a := first.e;
    } else {
      a := LongestBroken(rest);
      if first.Evt? && !Representable(first.e) && |first.e.payload| > |a.payload| {
        a := first.e;
      }
    }
  }

  /** If some event is not representable, some event that was sent never arrives. */
  lemma SomeEventLost(msgs: seq<Message>, reserva: string) returns (e: Evento)
    requires OneLine(reserva) && reserva != "" && Comentarios(msgs) && !Representaveis(msgs)
    ensures Evt(e) in msgs && e !in Recebidos("", msgs, reserva)
  {
    var a := LongestBroken(msgs);
    if a !in Recebidos("", msgs, reserva) {
      return a;
    }
    ArrivedForm("" + Wire(msgs), a, reserva);
    var c, m := SourceOf("", msgs, a, reserva);
    if m.Comentario? {
      CommentDelivers(c, m.texto, reserva);
    } else {
      e := m.e;
      if Representable(e) {
        RepresentableDelivers(c, e, reserva);
      } else if e in Recebidos("", msgs, reserva) {
        ArrivedForm("" + Wire(msgs), e, reserva);
        BrokenDeliversLess(c, e, reserva);
      }
    }
  }

  /** However the text is cut, the listeners receive exactly the events sent, in order, exactly
      when all of them are representable; and otherwise not even all of them in some order. */
  lemma DeliveredIff(msgs: seq<Message>, chunks: seq<string>, reserva: string)
    requires OneLine(reserva) && reserva != "" && Comentarios(msgs) && Concat(chunks) == Wire(msgs)
    ensures Despacha(Concat(chunks), reserva) == EventsIn(msgs) <==> Representaveis(msgs)
    ensures (forall e :: e in EventsIn(msgs) ==> e in Despacha(Concat(chunks), reserva)) <==> Representaveis(msgs)
  {
    assert "" + Wire(msgs) == Wire(msgs);
    if Representaveis(msgs) {
      RepresentableArrive("", msgs, reserva);
    } else {
      var e := SomeEventLost(msgs, reserva);
      InEventsIn(msgs, e);
    }
  }

  lemma TwoPieces(p: string, b: string)
    requires NoNewline(p) && Unbroken(b)
    ensures Split((p + "\n\n" + b) + "\n\n") == [p] + ([b] + [""])
  {
    NoNewlineUnbroken(p);
    SplitFrame(p, b + "\n\n");
    SplitFrame(b, "");
    EmptyLast(b + "\n\n");
    Regroup(p + "\n\n", b, "\n\n");
  }

  lemma TwoBlocks(first: string, second: string, reserva: string)
    ensures Dispatch([first] + [second], reserva) == EventsOf(first, reserva) + EventsOf(second, reserva)
  {
    FlatMapCons(Parser(reserva), first, [second]);
    FlatMapCons(Parser(reserva), second, []);
    EmptyLast([second]);
    EmptyLast(EventsOf(second, reserva));
  }

  /** A payload that holds the whole text of another event arrives as two events. */
  lemma TwoFromOne(e: Evento, p: string, f: Evento, reserva: string)
    requires EventShape(e) && Representable(f) && p != "" && OneLine(p)
    requires e.payload == p + "\n\n" + EventBody(f)
    ensures Despacha(Frame(Evt(e)), reserva) == [e.(payload := p), f]
  {
    BodyUnbroken(Evt(f));
    TwoPieces(p, EventBody(f));
    PiecesAfter("", e);
    EmptyFirst(Frame(Evt(e)));
    EmptyFirst(EventBody(e.(payload := p)));
    InitLastConcat([EventBody(f)], [""]);
    TwoBlocks(EventBody(e.(payload := p)), EventBody(f), reserva);
    EventParses(e.(payload := p), reserva);
    EventParses(f, reserva);
  }
}
