/** The controller's messages: events, heartbeats and the handshake, as one sequence of complete
    messages on the wire (SseWriter says why), read back through SseStream. */
module SseFraming {
  import opened Sequences
  import opened SseStream
  import opened Wrappers

  datatype Message =
    | Evt(e: Evento)
    | Comentario(texto: string)      // ": heartbeat", ":connected for tenant ..."

  function EventBody(e: Evento): string {
    ("id: " + e.correlationId) + "\n" + (("event: " + e.tipo) + "\n" + ("data: " + e.payload))
  }

  function Body(m: Message): string {
    match m
    case Evt(e) => EventBody(e)
    case Comentario(texto) => ":" + texto
  }

  function Frame(m: Message): string {
    Body(m) + "\n\n"
  }

  /** The bytes of an event and of a comment. */
  lemma FrameIs(e: Evento, texto: string)
    ensures Frame(Evt(e))
            == "id: " + e.correlationId + "\n" + "event: " + e.tipo + "\n" + "data: " + e.payload + "\n\n"
    ensures Frame(Comentario(texto)) == ":" + texto + "\n\n"
  {
  }

  ghost function Wire(msgs: seq<Message>): string {
    if msgs == [] then "" else Frame(msgs[0]) + Wire(msgs[1..])
  }

  ghost function EventsIn(msgs: seq<Message>): seq<Evento> {
    if msgs == [] then [] else (if msgs[0].Evt? then [msgs[0].e] else []) + EventsIn(msgs[1..])
  }

  predicate OneLine(s: string) {
    NoNewline(s) && Trimmed(s)
  }

  /** The events the wire can carry: non-empty, trimmed, single-line fields. */
  predicate Representable(e: Evento) {
    && e.tipo != "" && e.payload != "" && e.correlationId != ""
    && OneLine(e.tipo) && OneLine(e.payload) && OneLine(e.correlationId)
  }

  predicate WellFormed(m: Message) {
    match m
    case Evt(e) => Representable(e)
    case Comentario(texto) => NoNewline(texto)
  }

  // ---------------------------------------------------------------- messages survive the splitting

  /** No blank line within, and none completed by a newline that follows. */
  predicate Unbroken(s: string) {
    && (forall j: nat :: j < |s| ==> !BreakAt(s, j))
    && (s != "" ==> s[|s| - 1] != '\n')
  }

  lemma BreakBeyond(head: string, s: string, j: nat)
    requires Unbroken(head)
    ensures BreakAt(head + s, j) <==> j >= |head| && BreakAt(s, j - |head|)
  {
    var all := head + s;
    if j + 1 < |head| {
      assert all[j] == head[j] && all[j + 1] == head[j + 1];
      assert BreakAt(all, j) == BreakAt(head, j);
    }
  }

  lemma HeaderBreak(head: string, s: string)
    requires Unbroken(head)
    ensures FirstBreak(head + s) == |head| + FirstBreak(s)
  {
    var i := FirstBreak(head + s);
    BreakBeyond(head, s, i);
    BreakBeyond(head, s, |head| + FirstBreak(s));
  }

  lemma NoNewlineUnbroken(l: string)
    requires NoNewline(l)
    ensures Unbroken(l)
  {
    assert forall j: nat :: j < |l| ==> l[j] in l;
  }

  lemma NewlineFirst(rest: string)
    requires Unbroken(rest) && rest != "" && rest[0] != '\n'
    ensures Unbroken("\n" + rest)
  {
    assert forall j: nat :: 0 < j ==> BreakAt("\n" + rest, j) == BreakAt(rest, j - 1);
  }

  lemma UnbrokenJoin(l: string, rest: string)
    requires NoNewline(l) && Unbroken(rest) && rest != "" && rest[0] != '\n'
    ensures Unbroken(l + "\n" + rest)
  {
    NoNewlineUnbroken(l);
    NewlineFirst(rest);
    forall j: nat ensures !BreakAt(l + ("\n" + rest), j) {
      BreakBeyond(l, "\n" + rest, j);
    }
    assert l + "\n" + rest == l + ("\n" + rest);
  }

  lemma BodyUnbroken(m: Message)
    requires WellFormed(m)
    ensures Unbroken(Body(m)) && Body(m) != ""
  {
    match m
    case Evt(e) =>
      UnbrokenJoin("event: " + e.tipo, "data: " + e.payload);
      UnbrokenJoin("id: " + e.correlationId, ("event: " + e.tipo) + "\n" + ("data: " + e.payload));
    case Comentario(texto) =>
  }

  lemma SplitFrame(body: string, rest: string)
    requires Unbroken(body)
    ensures Split(body + "\n\n" + rest) == [body] + Split(rest)
  {
    var s := body + ("\n\n" + rest);
    assert s == body + "\n\n" + rest;
    assert BreakAt("\n\n" + rest, 0);
    HeaderBreak(body, "\n\n" + rest);
    assert s[..|body|] == body;
    assert s[|body| + 2..] == rest;
  }

  ghost function Bodies(msgs: seq<Message>): (r: seq<string>)
    ensures |r| == |msgs|
  {
    if msgs == [] then [] else [Body(msgs[0])] + Bodies(msgs[1..])
  }

  lemma {:induction false} SplitWire(msgs: seq<Message>)
    requires forall m :: m in msgs ==> WellFormed(m)
    ensures Split(Wire(msgs)) == Bodies(msgs) + [""]
  {
    if msgs != [] {
      BodyUnbroken(msgs[0]);
      assert Wire(msgs) == Body(msgs[0]) + "\n\n" + Wire(msgs[1..]);
      SplitFrame(Body(msgs[0]), Wire(msgs[1..]));
      SplitWire(msgs[1..]);
    }
  }

  // ---------------------------------------------------------------- messages survive the parsing

  lemma LinesOfOne(l: string)
    requires NoNewline(l)
    ensures LinesOf(l) == [l]
  {
  }

  lemma {:induction false} FirstNewlineIs(s: string, i: nat)
    requires i < |s| && s[i] == '\n' && NoNewline(s[..i])
    ensures FirstNewline(s) == i
  {
    if i > 0 {
      assert s[0] == s[..i][0];
      assert s[1..][..i - 1] == s[..i][1..];
      FirstNewlineIs(s[1..], i - 1);
    }
  }

  lemma LinesOfJoin(l: string, rest: string)
    requires NoNewline(l)
    ensures LinesOf(l + "\n" + rest) == [l] + LinesOf(rest)
  {
    var s := l + "\n" + rest;
    FirstNewlineIs(s, |l|);
    assert s[..|l|] == l;
    assert s[|l| + 1..] == rest;
  }

  lemma NotPrefix(line: string, prefix: string)
    requires line != "" && prefix != "" && line[0] != prefix[0]
    ensures !StartsWith(line, prefix)
  {
  }

  lemma IsPrefix(prefix: string, rest: string)
    ensures StartsWith(prefix + rest, prefix) && (prefix + rest)[|prefix|..] == rest
  {
  }

  /** A field line keeps its value: the blank after the colon is trimmed away and nothing else is. */
  lemma FieldLine(prefix: string, v: string)
    requires prefix != "" && !IsSpace(prefix[0]) && Trimmed(v) && v != ""
    ensures Trim(prefix + (" " + v)) == prefix + (" " + v)
    ensures Trim(" " + v) == v
  {
    TrimTrimmed(prefix + (" " + v));
    TrimTrimmed(v);
  }

  lemma ClassifyId(rest: string)
    ensures Classify("id:" + rest) == Id(Trim(rest))
  {
    var line := "id:" + rest;
    IsPrefix("id:", rest);
    NotPrefix(line, ":");
    NotPrefix(line, "event:");
    NotPrefix(line, "data:");
  }

  lemma ClassifyEvent(rest: string)
    ensures Classify("event:" + rest) == Tipo(Trim(rest))
  {
    IsPrefix("event:", rest);
    NotPrefix("event:" + rest, ":");
  }

  lemma ClassifyData(rest: string)
    ensures Classify("data:" + rest) == Dados(Trim(rest))
  {
    var line := "data:" + rest;
    IsPrefix("data:", rest);
    NotPrefix(line, ":");
    NotPrefix(line, "event:");
  }

  lemma IdLine(v: string)
    requires Trimmed(v) && v != ""
    ensures ReadLine("id: " + v) == Id(v)
  {
    assert "id: " + v == "id:" + (" " + v);
    FieldLine("id:", v);
    ClassifyId(" " + v);
  }

  lemma EventLine(v: string)
    requires Trimmed(v) && v != ""
    ensures ReadLine("event: " + v) == Tipo(v)
  {
    assert "event: " + v == "event:" + (" " + v);
    FieldLine("event:", v);
    ClassifyEvent(" " + v);
  }

  lemma DataLine(v: string)
    requires Trimmed(v) && v != ""
    ensures ReadLine("data: " + v) == Dados(v)
  {
    assert "data: " + v == "data:" + (" " + v);
    FieldLine("data:", v);
    ClassifyData(" " + v);
  }

  lemma EventParses(e: Evento, reserva: string)
    requires Representable(e)
    ensures ParseBlock(EventBody(e), reserva) == Some(e)
  {
    var a, b, c := "id: " + e.correlationId, "event: " + e.tipo, "data: " + e.payload;
    LinesOfOne(c);
    LinesOfJoin(b, c);
    LinesOfJoin(a, b + "\n" + c);
    var f := Fields("", "", "");
    TakeCons(f, a, [b] + [c]);
    TakeCons(TakeLine(f, a), b, [c]);
    TakeCons(TakeLine(TakeLine(f, a), b), c, []);
    IdLine(e.correlationId);
    EventLine(e.tipo);
    DataLine(e.payload);
  }

  lemma CommentLine(texto: string)
    ensures ReadLine(":" + texto) == Ignorada
  {
    var line := ":" + texto;
    assert TrimStart(line) == line;
    TrimEndKeepsHead(line);
    assert Trim(line)[..1] == ":";
  }

  lemma OneLineBlock(line: string, reserva: string)
    requires NoNewline(line) && ReadLine(line) == Ignorada
    ensures ParseBlock(line, reserva) == None
  {
    LinesOfOne(line);
    TakeCons(Fields("", "", ""), line, []);
  }

  lemma {:induction false} TrimEndKeepsHead(s: string)
    requires s != "" && !IsSpace(s[0])
    ensures TrimEnd(s) != "" && TrimEnd(s)[0] == s[0]
  {
    if IsSpace(s[|s| - 1]) {
      TrimEndKeepsHead(s[..|s| - 1]);
    }
  }

  lemma MessageParses(m: Message, reserva: string)
    requires WellFormed(m)
    ensures EventsOf(Body(m), reserva) == if m.Evt? then [m.e] else []
  {
    match m
    case Evt(e) =>
      EventParses(e, reserva);
    case Comentario(texto) =>
      CommentLine(texto);
      OneLineBlock(":" + texto, reserva);
  }

  lemma {:induction false} DispatchBodies(msgs: seq<Message>, reserva: string)
    requires forall m :: m in msgs ==> WellFormed(m)
    ensures Dispatch(Bodies(msgs), reserva) == EventsIn(msgs)
  {
    if msgs != [] {
      DispatchBodies(msgs[1..], reserva);
      FlatMapCons(Parser(reserva), Body(msgs[0]), Bodies(msgs[1..]));
      MessageParses(msgs[0], reserva);
    }
  }

  lemma FlatMapCons<A, B>(f: A -> seq<B>, x: A, rest: seq<A>)
    ensures FlatMap(f, [x] + rest) == f(x) + FlatMap(f, rest)
  {
    FlatMapConcat(f, [x], rest);
    assert Init([x]) == [];
    assert FlatMap(f, [x]) == [] + f(x);
  }

  /** Whatever the interleaving of events with heartbeats and the handshake, and however the text
      is cut into chunks, the client dispatches exactly the events, in order, and nothing is left over. */
  lemma WireRoundTrips(msgs: seq<Message>, chunks: seq<string>, reserva: string)
    requires forall m :: m in msgs ==> WellFormed(m)
    requires Concat(chunks) == Wire(msgs)
    ensures Dispatch(Init(Split(Concat(chunks))), reserva) == EventsIn(msgs)
    ensures Last(Split(Concat(chunks))) == ""
    ensures Dispatch(Split(Concat(chunks)), reserva) == EventsIn(msgs)
  {
    SplitWire(msgs);
    DispatchBodies(msgs, reserva);
    assert Init(Bodies(msgs) + [""]) == Bodies(msgs);
    OneLineBlock("", reserva);
    PathsAgreeIff(Wire(msgs), reserva);
  }

  // ---------------------------------------------------------------- and only those events

  ghost function SumLen(lines: seq<string>): nat {
    if lines == [] then 0 else SumLen(Init(lines)) + |Last(lines)|
  }

  lemma {:induction false} SumLenConcat(a: seq<string>, b: seq<string>)
    ensures SumLen(a + b) == SumLen(a) + SumLen(b)
  {
    if b == [] {
      assert a + b == a;
    } else {
      assert Init(a + b) == a + Init(b);
      SumLenConcat(a, Init(b));
    }
  }

  lemma {:induction false} LinesFit(s: string)
    ensures SumLen(LinesOf(s)) <= |s|
    decreases |s|
  {
    var i := FirstNewline(s);
    if i == |s| {
      assert Init([s]) == [];
    } else {
      LinesFit(s[i + 1..]);
      SumLenConcat([s[..i]], LinesOf(s[i + 1..]));
      assert Init([s[..i]]) == [];
    }
  }

  /** What the fields read so far look like. */
  ghost predicate Clean(f: Fields) {
    OneLine(f.tipo) && OneLine(f.id)
  }

  lemma TrimmedSlice(line: string, k: nat)
    requires NoNewline(line) && k <= |line|
    ensures OneLine(Trim(line[k..])) && |Trim(line[k..])| + k <= |line|
  {
    TrimNoNewline(line[k..]);
  }

  /** The bound is on the trimmed line, which is no longer than the raw one. */
  ghost predicate ShapeWithin(l: Campo, length: nat) {
    match l
    case Ignorada => true
    case Tipo(v) => OneLine(v)
    case Dados(v) => |v| + 5 <= length
    case Id(v) => OneLine(v)
  }

  lemma ClassifyShape(line: string)
    requires NoNewline(line)
    ensures ShapeWithin(Classify(line), |line|)
  {
    if |line| >= 3 {
      TrimmedSlice(line, 3);
    }
    if |line| >= 5 {
      TrimmedSlice(line, 5);
    }
    if |line| >= 6 {
      TrimmedSlice(line, 6);
    }
  }

  lemma ReadLineShape(raw: string)
    requires NoNewline(raw)
    ensures ShapeWithin(ReadLine(raw), |raw|)
  {
    TrimmedSlice(raw, 0);
    assert raw[0..] == raw;
    ClassifyShape(Trim(raw));
  }

  lemma TakeLineClean(f: Fields, raw: string)
    requires NoNewline(raw) && Clean(f)
    ensures Clean(TakeLine(f, raw))
    ensures |TakeLine(f, raw).dados| <= |f.dados| + |raw|
    ensures f.dados == "" && TakeLine(f, raw).dados != "" ==> |TakeLine(f, raw).dados| + 5 <= |raw|
  {
    ReadLineShape(raw);
  }

  lemma {:induction false} TakeLinesClean(f: Fields, lines: seq<string>)
    requires Clean(f) && forall l :: l in lines ==> NoNewline(l)
    ensures Clean(TakeLines(f, lines))
    ensures |TakeLines(f, lines).dados| <= |f.dados| + SumLen(lines)
    ensures f.dados == "" && TakeLines(f, lines).dados != "" ==> |TakeLines(f, lines).dados| + 5 <= SumLen(lines)
  {
    if lines != [] {
      TakeLinesClean(f, Init(lines));
      TakeLineClean(TakeLines(f, Init(lines)), Last(lines));
    }
  }

  /** Any event the client dispatches has a clean type and id, and a payload shorter than its block. */
  lemma ParsedShape(block: string, reserva: string)
    requires OneLine(reserva) && reserva != ""
    ensures match ParseBlock(block, reserva)
            case None => true
            case Some(e) =>
              && e.tipo != "" && OneLine(e.tipo)
              && e.correlationId != "" && OneLine(e.correlationId)
              && e.payload != "" && |e.payload| + 5 <= |block|
  {
    TakeLinesClean(Fields("", "", ""), LinesOf(block));
    LinesFit(block);
  }

  lemma PrefixTail(t: string, head: string, tail: string)
    requires t <= head + tail && |head| <= |t|
    ensures t == head + t[|head|..] && t[|head|..] <= tail
  {
    assert t[..|head|] == head;
  }

  lemma DataStartsVisible(tail: string)
    ensures TrimStart("data:" + tail) == "data:" + tail && !IsSpace(("data:" + tail)[4])
  {
    var raw := "data:" + tail;
    assert raw[0] == 'd' && raw[4] == ':';
  }

  lemma DataLineTrimmed(p: string) returns (rest: string)
    ensures Trim("data: " + p) == "data:" + rest
    ensures rest <= " " + p
  {
    var head, tail := "data:", " " + p;
    assert "data: " + p == head + tail;
    DataStartsVisible(tail);
    TrimEndKeeps(head + tail, 5);
    TrimEndPrefix(head + tail);
    PrefixTail(Trim(head + tail), head, tail);
    rest := Trim(head + tail)[5..];
  }

  lemma TrimAfterBlank(s: string)
    requires s != "" ==> s[0] == ' '
    ensures s == "" || |Trim(s)| < |s|
  {
    if s != "" {
      assert TrimStart(s) == TrimStart(s[1..]);
    }
  }

  /** A data line yields no more than what follows its colon, trimmed. */
  lemma DataLineYields(p: string) returns (v: string)
    requires NoNewline(p)
    ensures ReadLine("data: " + p) == Dados(v)
    ensures NoNewline("data: " + p)
    ensures OneLine(v) && |v| <= |p|
  {
    var rest := DataLineTrimmed(p);
    ClassifyData(rest);
    v := Trim(rest);
    TrimAfterPrefix(p, rest);
  }

  lemma TrimAfterPrefix(p: string, rest: string)
    requires NoNewline(p) && rest <= " " + p
    ensures OneLine(Trim(rest)) && |Trim(rest)| <= |p|
  {
    if rest != "" {
      assert rest[0] == (" " + p)[0];
    }
    TrimAfterBlank(rest);
    assert '\n' !in " " + p;
    assert NoNewline(rest) by {
      assert forall k :: 0 <= k < |rest| ==> rest[k] == (" " + p)[k];
    }
    TrimNoNewline(rest);
  }

  /** Trimming the end spares everything up to a character that is not white space. */
  lemma {:induction false} TrimEndKeeps(s: string, n: nat)
    requires 0 < n <= |s| && !IsSpace(s[n - 1])
    ensures n <= |TrimEnd(s)|
  {
    if n < |s| && IsSpace(s[|s| - 1]) {
      TrimEndKeeps(s[..|s| - 1], n);
    }
  }

  lemma TakeData(f: Fields, line: string, v: string)
    requires f.dados == "" && ReadLine(line) == Dados(v)
    ensures TakeLine(f, line) == f.(dados := v)
  {
  }

  lemma OneDataLine(f: Fields, line: string, v: string)
    requires f.dados == "" && NoNewline(line) && ReadLine(line) == Dados(v)
    ensures TakeLines(f, LinesOf(line)) == f.(dados := v)
  {
    LinesOfOne(line);
    TakeCons(f, line, []);
    TakeData(f, line, v);
  }

  lemma MoreLines(f: Fields, line: string, v: string, rest: string)
    requires Clean(f) && f.dados == "" && NoNewline(line) && ReadLine(line) == Dados(v)
    ensures |TakeLines(f, LinesOf(line + "\n" + rest)).dados| <= |v| + |rest|
  {
    LinesOfJoin(line, rest);
    TakeCons(f, line, LinesOf(rest));
    TakeData(f, line, v);
    TakeLinesClean(f.(dados := v), LinesOf(rest));
    LinesFit(rest);
  }

  lemma CutAtNewline(p: string, i: nat)
    requires i < |p| && p[i] == '\n'
    ensures "data: " + p == ("data: " + p[..i]) + "\n" + p[i + 1..]
  {
    assert p == p[..i] + ("\n" + p[i + 1..]);
  }

  lemma NewlineFound(p: string)
    ensures NoNewline(p) <==> FirstNewline(p) == |p|
  {
    if FirstNewline(p) == |p| {
      assert p[..|p|] == p;
    } else {
      assert p[FirstNewline(p)] in p;
    }
  }

  lemma WholeData(f: Fields, p: string)
    requires f.dados == "" && NoNewline(p)
    ensures |TakeLines(f, LinesOf("data: " + p)).dados| <= |p|
    ensures OneLine(TakeLines(f, LinesOf("data: " + p)).dados)
  {
    var v := DataLineYields(p);
    OneDataLine(f, "data: " + p, v);
  }

  lemma CutData(f: Fields, p: string, i: nat)
    requires Clean(f) && f.dados == "" && i < |p| && p[i] == '\n' && NoNewline(p[..i])
    ensures |TakeLines(f, LinesOf("data: " + p)).dados| < |p|
  {
    var v := DataLineYields(p[..i]);
    CutAtNewline(p, i);
    MoreLines(f, "data: " + p[..i], v, p[i + 1..]);
  }

  /** What the data line and the lines after it leave in the fields. */
  lemma DataLinesYield(f: Fields, p: string)
    requires Clean(f) && f.dados == ""
    ensures |TakeLines(f, LinesOf("data: " + p)).dados| <= |p|
    ensures !NoNewline(p) ==> |TakeLines(f, LinesOf("data: " + p)).dados| < |p|
    ensures NoNewline(p) ==> OneLine(TakeLines(f, LinesOf("data: " + p)).dados)
  {
    NewlineFound(p);
    if NoNewline(p) {
      WholeData(f, p);
    } else {
      CutData(f, p, FirstNewline(p));
    }
  }

  ghost predicate HeaderClean(e: Evento) {
    e.tipo != "" && OneLine(e.tipo) && e.correlationId != "" && OneLine(e.correlationId)
  }

  lemma EventFields(e: Evento)
    requires HeaderClean(e)
    ensures TakeLines(Fields("", "", ""), LinesOf(EventBody(e)))
            == TakeLines(Fields(e.tipo, "", e.correlationId), LinesOf("data: " + e.payload))
  {
    EventLines(e);
    HeaderFields(e, LinesOf("data: " + e.payload));
  }

  lemma ThreeLines(a: string, b: string, c: string)
    requires NoNewline(a) && NoNewline(b)
    ensures LinesOf(a + "\n" + (b + "\n" + c)) == [a] + ([b] + LinesOf(c))
  {
    LinesOfJoin(b, c);
    LinesOfJoin(a, b + "\n" + c);
  }

  lemma EventLines(e: Evento)
    requires HeaderClean(e)
    ensures LinesOf(EventBody(e))
            == ["id: " + e.correlationId] + (["event: " + e.tipo] + LinesOf("data: " + e.payload))
  {
    ThreeLines("id: " + e.correlationId, "event: " + e.tipo, "data: " + e.payload);
  }

  /** The data read back from a framed payload: nothing is added, every newline costs. */
  lemma PayloadShrinks(e: Evento)
    requires HeaderClean(e)
    ensures var dados := TakeLines(Fields("", "", ""), LinesOf(EventBody(e))).dados;
            && |dados| <= |e.payload|
            && (!NoNewline(e.payload) ==> |dados| < |e.payload|)
            && (NoNewline(e.payload) ==> OneLine(dados))
  {
    EventFields(e);
    DataLinesYield(Fields(e.tipo, "", e.correlationId), e.payload);
  }

  lemma HeaderFields(e: Evento, rest: seq<string>)
    requires HeaderClean(e)
    ensures TakeLines(Fields("", "", ""), ["id: " + e.correlationId] + (["event: " + e.tipo] + rest))
            == TakeLines(Fields(e.tipo, "", e.correlationId), rest)
  {
    IdLine(e.correlationId);
    EventLine(e.tipo);
    var f := Fields("", "", "");
    TakeCons(f, "id: " + e.correlationId, ["event: " + e.tipo] + rest);
    TakeCons(f.(id := e.correlationId), "event: " + e.tipo, rest);
  }

  /** A framed event is parsed back to itself exactly when its fields are representable. */
  lemma ParsesBackIff(e: Evento, reserva: string)
    requires OneLine(reserva) && reserva != ""
    ensures ParseBlock(EventBody(e), reserva) == Some(e) <==> Representable(e)
  {
    if Representable(e) {
      EventParses(e, reserva);
    }
    if ParseBlock(EventBody(e), reserva) == Some(e) {
      ParsedShape(EventBody(e), reserva);
      PayloadShrinks(e);
    }
  }

  ghost predicate EventShape(e: Evento) {
    HeaderClean(e) && e.payload != ""
  }

  lemma {:induction false} DispatchShapes(blocks: seq<string>, reserva: string, bound: nat)
    requires OneLine(reserva) && reserva != "" && forall b :: b in blocks ==> |b| <= bound
    ensures forall e :: e in Dispatch(blocks, reserva) ==> EventShape(e) && |e.payload| + 5 <= bound
  {
    if blocks != [] {
      DispatchShapes(Init(blocks), reserva, bound);
      ParsedShape(Last(blocks), reserva);
    }
  }

  lemma {:induction false} SplitFits(s: string)
    ensures forall b :: b in Split(s) ==> |b| <= |s|
    ensures forall k :: 0 < k < |Split(s)| ==> |Split(s)[k]| + 2 <= |s|
    decreases |s|
  {
    var i := FirstBreak(s);
    if i < |s| {
      SplitFits(s[i + 2..]);
    }
  }

  lemma SplitCut(s: string)
    ensures FirstBreak(s) == |s| ==> Split(s) == [s]
    ensures FirstBreak(s) < |s| ==> Split(s) == [s[..FirstBreak(s)]] + Split(s[FirstBreak(s) + 2..])
  {
  }

  lemma HeaderSlices(head: string, s: string, i: nat)
    requires i + 2 <= |s|
    ensures (head + s)[..|head| + i] == head + s[..i]
    ensures (head + s)[|head| + i + 2..] == s[i + 2..]
  {
  }

  lemma SplitHeader(head: string, s: string)
    requires Unbroken(head)
    ensures Split(head + s)[0] == head + Split(s)[0]
    ensures Split(head + s)[1..] == Split(s)[1..]
  {
    var i := FirstBreak(s);
    HeaderBreak(head, s);
    SplitCut(s);
    SplitCut(head + s);
    if i < |s| {
      HeaderSlices(head, s, i);
      var rest := Split(s[i + 2..]);
      ConsParts(s[..i], rest, Split(s));
      ConsParts(head + s[..i], rest, Split(head + s));
    }
  }

  lemma HeaderUnbroken(e: Evento, payload: string)
    requires EventShape(e) && NoNewline(payload)
    ensures Unbroken(EventBody(e.(payload := payload)))
  {
    UnbrokenJoin("event: " + e.tipo, "data: " + payload);
    UnbrokenJoin("id: " + e.correlationId, ("event: " + e.tipo) + "\n" + ("data: " + payload));
  }

  /** The block that begins with the header carries a prefix of the payload, never the whole. */
  lemma FirstBlockCut(e: Evento, q: string, reserva: string)
    requires EventShape(e) && !NoNewline(e.payload) && q <= e.payload
    ensures e !in EventsOf(EventBody(e.(payload := q)), reserva)
  {
    PayloadShrinks(e.(payload := q));
    assert q == e.payload || |q| < |e.payload|;
    var block := EventBody(e.(payload := q));
    assert |TakeLines(Fields("", "", ""), LinesOf(block)).dados| < |e.payload|;
    assert forall v :: v in EventsOf(block, reserva) ==> v.payload == TakeLines(Fields("", "", ""), LinesOf(block)).dados;
  }

  lemma BodyEnds(e: Evento, q: string)
    ensures EventBody(e.(payload := q)) == EventBody(e.(payload := "")) + q
  {
    assert "data: " + q == ("data: " + "") + q;
  }

  lemma FirstPiece(p: string)
    ensures Split(p + "\n\n")[0] <= p
    ensures |Split(p + "\n\n")| > 1
    ensures forall k :: 0 < k < |Split(p + "\n\n")| ==> |Split(p + "\n\n")[k]| <= |p|
  {
    var x := p + "\n\n";
    assert BreakAt(x, |p|);
    assert x[..FirstBreak(x)] == p[..FirstBreak(x)];
    SplitFits(x);
  }

  lemma HeaderFirst(e: Evento)
    ensures Frame(Evt(e)) == EventBody(e.(payload := "")) + (e.payload + "\n\n")
  {
    BodyEnds(e, e.payload);
    assert e.(payload := e.payload) == e;
    assert (EventBody(e.(payload := "")) + e.payload) + "\n\n" == EventBody(e.(payload := "")) + (e.payload + "\n\n");
  }

  lemma FramedPieces(e: Evento)
    requires EventShape(e)
    ensures var parts := Split(e.payload + "\n\n");
            |parts| > 1 && Init(Split(Frame(Evt(e)))) == [EventBody(e.(payload := parts[0]))] + Init(parts[1..])
  {
    var x := e.payload + "\n\n";
    var parts := Split(x);
    var head := EventBody(e.(payload := ""));
    HeaderUnbroken(e, "");
    HeaderFirst(e);
    SplitHeader(head, x);
    FirstPiece(e.payload);
    BodyEnds(e, parts[0]);
    FirstOfMany(Split(head + x));
  }

  /** With a newline in the payload, no event the client dispatches carries it whole. */
  lemma BrokenPayloadLost(e: Evento, reserva: string)
    requires OneLine(reserva) && reserva != "" && EventShape(e) && !NoNewline(e.payload)
    ensures e !in Dispatch(Init(Split(Frame(Evt(e)))), reserva)
  {
    var parts := Split(e.payload + "\n\n");
    FramedPieces(e);
    FirstPiece(e.payload);
    FlatMapCons(Parser(reserva), EventBody(e.(payload := parts[0])), Init(parts[1..]));
    FirstBlockCut(e, parts[0], reserva);
    DispatchShapes(Init(parts[1..]), reserva, |e.payload|);
  }

  lemma WholePayloadBlock(e: Evento, reserva: string)
    requires EventShape(e) && NoNewline(e.payload)
    ensures Dispatch(Init(Split(Frame(Evt(e)))), reserva) == EventsOf(EventBody(e), reserva)
  {
    HeaderUnbroken(e, e.payload);
    assert e.(payload := e.payload) == e;
    SplitFrame(EventBody(e), "");
    assert Frame(Evt(e)) == EventBody(e) + "\n\n" + "";
    assert Init([EventBody(e)] + Split("")) == [EventBody(e)];
    FlatMapCons(Parser(reserva), EventBody(e), []);
    assert [EventBody(e)] + [] == [EventBody(e)];
  }

  /** Sent alone, an event reaches the listeners unchanged, and alone, exactly when it is representable. */
  lemma CarriedIff(e: Evento, reserva: string)
    requires OneLine(reserva) && reserva != ""
    ensures Dispatch(Init(Split(Frame(Evt(e)))), reserva) == [e] <==> Representable(e)
  {
    if Representable(e) {
      WholePayloadBlock(e, reserva);
      ParsesBackIff(e, reserva);
    } else if Dispatch(Init(Split(Frame(Evt(e)))), reserva) == [e] {
      SplitFits(Frame(Evt(e)));
      DispatchShapes(Init(Split(Frame(Evt(e)))), reserva, |Frame(Evt(e))|);
      assert e in Dispatch(Init(Split(Frame(Evt(e)))), reserva);
      if NoNewline(e.payload) {
        WholePayloadBlock(e, reserva);
        ParsesBackIff(e, reserva);
      } else {
        BrokenPayloadLost(e, reserva);
      }
    }
  }
}
