/** Server-sent events from the controller's writer to the mobile client's parser. The format is
    that of sections 9.2.5 and 9.2.6 of the WHATWG HTML Living Standard; the client reads a
    narrower dialect: blocks end at "\n\n" only, and lines and values are trimmed. */
module SseStream {
  import opened Sequences
  import opened Wrappers

  datatype Evento = Evento(tipo: string, payload: string, correlationId: string)

  // ---------------------------------------------------------------- splitting into blocks

  predicate BreakAt(s: string, j: nat) {
    j + 1 < |s| && s[j] == '\n' && s[j + 1] == '\n'
  }

  /** Where the first blank line begins, or |s|. */
  function FirstBreak(s: string): (i: nat)
    ensures i <= |s|
    ensures i < |s| ==> BreakAt(s, i)
    ensures forall j: nat :: j < i ==> !BreakAt(s, j)
  {
    if |s| < 2 then |s|
    else if BreakAt(s, 0) then 0
    else
      var i := 1 + FirstBreak(s[1..]);
      assert forall j: nat :: 0 < j < i ==> (BreakAt(s, j) ==> BreakAt(s[1..], j - 1));
      i
  }

  /** s.split("\n\n") */
  function Split(s: string): (parts: seq<string>)
    ensures parts != []
    decreases |s|
  {
    var i := FirstBreak(s);
    if i == |s| then [s] else [s[..i]] + Split(s[i + 2..])
  }

  lemma FirstBreakIs(s: string, i: nat)
    requires BreakAt(s, i)
    requires forall j: nat :: j < i ==> !BreakAt(s, j)
    ensures FirstBreak(s) == i
  {
  }

  lemma BreakStays(s: string, t: string)
    requires FirstBreak(s) < |s|
    ensures FirstBreak(s + t) == FirstBreak(s)
    ensures (s + t)[..FirstBreak(s)] == s[..FirstBreak(s)]
    ensures (s + t)[FirstBreak(s) + 2..] == s[FirstBreak(s) + 2..] + t
  {
    var i := FirstBreak(s);
    assert forall j: nat :: j <= i ==> BreakAt(s + t, j) == BreakAt(s, j);
    FirstBreakIs(s + t, i);
  }

  /** Text that arrives later changes only the last piece. */
  lemma {:induction false} SplitAppend(s: string, t: string)
    ensures Split(s + t) == Init(Split(s)) + Split(Last(Split(s)) + t)
    decreases |s|
  {
    var i := FirstBreak(s);
    if i == |s| {
      assert Split(s) == [s];
      assert Split(s + t) == [] + Split(s + t);
    } else {
      var head, rest := s[..i], s[i + 2..];
      BreakStays(s, t);
      SplitAppend(rest, t);
      assert Split(s) == [head] + Split(rest);
      assert Split(s + t) == [head] + Split(rest + t);
      InitLastCons(head, Split(rest), Split(Last(Split(rest)) + t));
    }
  }

  ghost function Concat(chunks: seq<string>): string {
    if chunks == [] then "" else Concat(Init(chunks)) + Last(chunks)
  }

  // ---------------------------------------------------------------- one block

  /** What String.trim removes. */
  predicate IsSpace(c: char) {
    || '\t' <= c <= '\r' || c == ' '
    || c == '\U{00A0}' || c == '\U{1680}' || '\U{2000}' <= c <= '\U{200A}' || c == '\U{2028}' || c == '\U{2029}'
    || c == '\U{202F}' || c == '\U{205F}' || c == '\U{3000}' || c == '\U{FEFF}'
  }

  function TrimStart(s: string): (r: string)
    ensures |r| <= |s|
    ensures r == "" || !IsSpace(r[0])
  {
    if s != "" && IsSpace(s[0]) then TrimStart(s[1..]) else s
  }

  function TrimEnd(s: string): (r: string)
    ensures |r| <= |s|
    ensures r == "" || (!IsSpace(r[|r| - 1]) && r[0] == s[0])
  {
    if s != "" && IsSpace(s[|s| - 1]) then TrimEnd(s[..|s| - 1]) else s
  }

  function Trim(s: string): (r: string)
    ensures |r| <= |s|
    ensures Trimmed(r)
  {
    TrimEnd(TrimStart(s))
  }

  predicate Trimmed(s: string) {
    s == "" || (!IsSpace(s[0]) && !IsSpace(s[|s| - 1]))
  }

  lemma TrimTrimmed(s: string)
    requires Trimmed(s)
    ensures Trim(s) == s
    ensures s != "" ==> Trim(" " + s) == s
  {
    assert (" " + s)[1..] == s;
  }

  predicate NoNewline(s: string) {
    '\n' !in s
  }

  lemma {:induction false} TrimStartNoNewline(s: string)
    requires NoNewline(s)
    ensures NoNewline(TrimStart(s))
  {
    if s != "" && IsSpace(s[0]) {
      TrimStartNoNewline(s[1..]);
    }
  }

  lemma {:induction false} TrimEndPrefix(s: string)
    ensures TrimEnd(s) <= s
  {
    if s != "" && IsSpace(s[|s| - 1]) {
      TrimEndPrefix(s[..|s| - 1]);
    }
  }

  lemma TrimNoNewline(s: string)
    requires NoNewline(s)
    ensures NoNewline(Trim(s))
  {
    TrimStartNoNewline(s);
    TrimEndPrefix(TrimStart(s));
  }

  function FirstNewline(s: string): (i: nat)
    ensures i <= |s|
    ensures i < |s| ==> s[i] == '\n'
    ensures NoNewline(s[..i])
  {
    if s == "" || s[0] == '\n' then 0
    else
      var i := 1 + FirstNewline(s[1..]);
      assert s[..i] == [s[0]] + s[1..][..i - 1];
      i
  }

  /** block.split("\n") */
  function LinesOf(s: string): (lines: seq<string>)
    ensures lines != []
    ensures forall l :: l in lines ==> NoNewline(l)
    decreases |s|
  {
    var i := FirstNewline(s);
    if i == |s| then [s] else [s[..i]] + LinesOf(s[i + 1..])
  }

  datatype Campo = Ignorada | Tipo(v: string) | Dados(v: string) | Id(v: string)

  predicate StartsWith(s: string, prefix: string) {
    |prefix| <= |s| && s[..|prefix|] == prefix
  }

  /** What one trimmed line says: nothing, for an empty line, a comment or a field the client does not read. */
  function Classify(line: string): Campo {
    if line == "" || StartsWith(line, ":") then Ignorada
    else if StartsWith(line, "event:") then Tipo(Trim(line[6..]))
    else if StartsWith(line, "data:") then Dados(Trim(line[5..]))
    else if StartsWith(line, "id:") then Id(Trim(line[3..]))
    else Ignorada
  }

  function ReadLine(raw: string): Campo {
    Classify(Trim(raw))
  }

  datatype Fields = Fields(tipo: string, dados: string, id: string)

  function TakeLine(f: Fields, raw: string): Fields {
    match ReadLine(raw)
    case Ignorada => f
    case Tipo(v) => f.(tipo := v)
    case Dados(v) => f.(dados := if f.dados != "" then f.dados + "\n" + v else v)
    case Id(v) => f.(id := v)
  }

  ghost function Fold<A, B>(step: (A, B) -> A, a: A, xs: seq<B>): A {
    if xs == [] then a else step(Fold(step, a, Init(xs)), Last(xs))
  }

  ghost function LineStep(): (Fields, string) -> Fields {
    (f: Fields, raw: string) => TakeLine(f, raw)
  }

  ghost function TakeLines(f: Fields, lines: seq<string>): Fields {
    Fold(LineStep(), f, lines)
  }

  lemma FoldNext<A, B>(step: (A, B) -> A, a: A, xs: seq<B>, k: nat)
    requires k < |xs|
    ensures Fold(step, a, xs[..k + 1]) == step(Fold(step, a, xs[..k]), xs[k])
  {
    assert Init(xs[..k + 1]) == xs[..k];
  }

  lemma {:induction false} FoldConcat<A, B>(step: (A, B) -> A, a: A, xs: seq<B>, ys: seq<B>)
    ensures Fold(step, a, xs + ys) == Fold(step, Fold(step, a, xs), ys)
  {
    if ys == [] {
      assert xs + ys == xs;
    } else {
      assert Init(xs + ys) == xs + Init(ys);
      FoldConcat(step, a, xs, Init(ys));
    }
  }

  lemma FoldCons<A, B>(step: (A, B) -> A, a: A, x: B, rest: seq<B>)
    ensures Fold(step, a, [x] + rest) == Fold(step, step(a, x), rest)
  {
    FoldConcat(step, a, [x], rest);
    assert Init([x]) == [];
    assert Fold(step, a, [x]) == step(a, x);
  }

  /** Reading the first line, then the rest. */
  lemma TakeCons(f: Fields, line: string, rest: seq<string>)
    ensures TakeLines(f, [line] + rest) == TakeLines(TakeLine(f, line), rest)
    ensures TakeLines(f, [line]) == TakeLine(f, line)
  {
    FoldCons(LineStep(), f, line, rest);
    FoldCons(LineStep(), f, line, []);
    assert [line] + [] == [line];
  }

  /** The event a block dispatches, if any. `reserva` is the id made up when none came. */
  ghost function ParseBlock(block: string, reserva: string): Option<Evento> {
    Dispatched(TakeLines(Fields("", "", ""), LinesOf(block)), reserva)
  }

  function Dispatched(f: Fields, reserva: string): Option<Evento> {
    if f.tipo != "" && f.dados != "" then Some(Evento(f.tipo, f.dados, if f.id != "" then f.id else reserva)) else None
  }

  method ProcessSseBlock(block: string, reserva: string) returns (r: Option<Evento>)
    ensures r == ParseBlock(block, reserva)
  {
    var lines := LinesOf(block);
    var f := Fields("", "", "");
    for k := 0 to |lines|
      invariant f == TakeLines(Fields("", "", ""), lines[..k])
    {
      FoldNext(LineStep(), Fields("", "", ""), lines, k);
      f := TakeLine(f, lines[k]);
    }
    assert lines[..|lines|] == lines;
    r := Dispatched(f, reserva);
  }

  // ---------------------------------------------------------------- the read loop

  ghost function FlatMap<A, B>(f: A -> seq<B>, xs: seq<A>): seq<B> {
    if xs == [] then [] else FlatMap(f, Init(xs)) + f(Last(xs))
  }

  lemma {:induction false} FlatMapConcat<A, B>(f: A -> seq<B>, a: seq<A>, b: seq<A>)
    ensures FlatMap(f, a + b) == FlatMap(f, a) + FlatMap(f, b)
  {
    if b == [] {
      assert a + b == a;
    } else {
      InitLastConcat(a, b);
      FlatMapConcat(f, a, Init(b));
      Regroup(FlatMap(f, a), FlatMap(f, Init(b)), f(Last(b)));
    }
  }

  ghost function EventsOf(block: string, reserva: string): seq<Evento> {
    match ParseBlock(block, reserva)
    case None => []
    case Some(e) => [e]
  }

  ghost function Parser(reserva: string): string -> seq<Evento> {
    (block: string) => EventsOf(block, reserva)
  }

  /** What the listeners receive for these blocks. */
  ghost function Dispatch(blocks: seq<string>, reserva: string): seq<Evento> {
    FlatMap(Parser(reserva), blocks)
  }

  method ProcessBlocks(blocks: seq<string>, reserva: string) returns (eventos: seq<Evento>)
    ensures eventos == Dispatch(blocks, reserva)
  {
    eventos := [];
    for k := 0 to |blocks|
      invariant eventos == Dispatch(blocks[..k], reserva)
    {
      var e := ProcessSseBlock(blocks[k], reserva);
      eventos := eventos + match e case None => [] case Some(v) => [v];
      assert Init(blocks[..k + 1]) == blocks[..k];
    }
    assert blocks[..|blocks|] == blocks;
  }

  lemma ConcatNext(chunks: seq<string>, k: nat)
    requires k < |chunks|
    ensures Concat(chunks[..k + 1]) == Concat(chunks[..k]) + chunks[k]
  {
    assert Init(chunks[..k + 1]) == chunks[..k];
  }

  /** One turn of the read loop: the old remainder and the new chunk decide what is dispatched next. */
  lemma ChunkArrives(text: string, chunk: string, reserva: string)
    ensures var parts := Split(Last(Split(text)) + chunk);
            && Last(Split(text + chunk)) == Last(parts)
            && Dispatch(Init(Split(text + chunk)), reserva)
               == Dispatch(Init(Split(text)), reserva) + Dispatch(Init(parts), reserva)
  {
    var before, parts := Init(Split(text)), Split(Last(Split(text)) + chunk);
    SplitAppend(text, chunk);
    InitLastConcat(before, parts);
    FlatMapConcat(Parser(reserva), before, Init(parts));
  }

  /** The read loop. However the text is cut into chunks, it dispatches the blocks of the whole
      text in order and is left with its last piece, which it drops when the stream ends. */
  method ReadStream(chunks: seq<string>, reserva: string) returns (eventos: seq<Evento>, buffer: string)
    ensures eventos == Dispatch(Init(Split(Concat(chunks))), reserva)
    ensures buffer == Last(Split(Concat(chunks)))
  {
    eventos, buffer := [], "";
    for k := 0 to |chunks|
      invariant eventos == Dispatch(Init(Split(Concat(chunks[..k]))), reserva)
      invariant buffer == Last(Split(Concat(chunks[..k])))
    {
      ConcatNext(chunks, k);
      ChunkArrives(Concat(chunks[..k]), chunks[k], reserva);
      buffer := buffer + chunks[k];
      var parts := Split(buffer);
      buffer := Last(parts);
      var despachados := ProcessBlocks(Init(parts), reserva);
      eventos := eventos + despachados;
    }
    assert chunks[..|chunks|] == chunks;
  }

  /** Without a streaming body the whole text is split and every piece is processed. */
  method ReadWhole(text: string, reserva: string) returns (eventos: seq<Evento>)
    ensures eventos == Dispatch(Split(text), reserva)
  {
    eventos := ProcessBlocks(Split(text), reserva);
  }

  /** The two ways of reading agree exactly when the unterminated end of the text dispatches nothing. */
  lemma PathsAgreeIff(text: string, reserva: string)
    ensures Dispatch(Split(text), reserva) == Dispatch(Init(Split(text)), reserva)
            <==> ParseBlock(Last(Split(text)), reserva).None?
  {
    var blocks := Split(text);
    assert Dispatch(blocks, reserva) == Dispatch(Init(blocks), reserva) + EventsOf(Last(blocks), reserva);
    if ParseBlock(Last(blocks), reserva).Some? {
      assert |Dispatch(blocks, reserva)| == |Dispatch(Init(blocks), reserva)| + 1;
    }
  }
}
