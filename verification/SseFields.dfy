/** What the client makes of a text, said without the steps of its parser: the pieces of a split put
    back together, what a trim cuts off, and which lines of a block an event is made of. */
module SseFields {
  import opened Sequences
  import opened SseStream
  import opened Wrappers

  /** parts.join(sep) */
  ghost function Joined(parts: seq<string>, sep: string): string {
    if parts == [] then "" else if |parts| == 1 then parts[0] else parts[0] + (sep + Joined(parts[1..], sep))
  }

  lemma JoinedCons(head: string, rest: seq<string>, sep: string)
    requires rest != []
    ensures Joined([head] + rest, sep) == head + (sep + Joined(rest, sep))
  {
    assert ([head] + rest)[1..] == rest;
  }

  // ---------------------------------------------------------------- splitting loses nothing

  /** A piece ends at the first blank line there is. */
  ghost predicate EndsAtBreak(piece: string) {
    FirstBreak(piece + "\n\n") == |piece|
  }

  ghost predicate Pieces(s: string, parts: seq<string>) {
    && parts != [] && Joined(parts, "\n\n") == s
    && (forall k :: 0 <= k < |parts| - 1 ==> EndsAtBreak(parts[k]))
    && FirstBreak(parts[|parts| - 1]) == |parts[|parts| - 1]|
  }

  lemma PrefixBreaks(s: string, t: string, i: nat)
    requires i + 2 <= |s| && t == s[..i + 2] && BreakAt(s, i)
    requires forall j: nat :: j < i ==> !BreakAt(s, j)
    ensures FirstBreak(t) == i
  {
    forall j: nat | j < i ensures !BreakAt(t, j) {
      assert t[j] == s[j] && t[j + 1] == s[j + 1];
      assert !BreakAt(s, j);
    }
    assert t[i] == s[i] && t[i + 1] == s[i + 1];
    FirstBreakIs(t, i);
  }

  lemma BreakSplits(s: string, i: nat)
    requires BreakAt(s, i)
    ensures s[..i + 2] == s[..i] + "\n\n"
    ensures s == s[..i] + ("\n\n" + s[i + 2..])
  {
  }

  lemma HeadEnds(s: string)
    requires FirstBreak(s) < |s|
    ensures EndsAtBreak(s[..FirstBreak(s)])
    ensures s == s[..FirstBreak(s)] + ("\n\n" + s[FirstBreak(s) + 2..])
  {
    var i := FirstBreak(s);
    BreakSplits(s, i);
    PrefixBreaks(s, s[..i] + "\n\n", i);
  }

  /** The pieces, joined by blank lines, are the text, and each was cut at the first one possible. */
  lemma {:induction false} SplitRejoins(s: string)
    ensures Pieces(s, Split(s))
    decreases |s|
  {
    var i := FirstBreak(s);
    if i < |s| {
      var head, rest := s[..i], s[i + 2..];
      HeadEnds(s);
      SplitRejoins(rest);
      JoinedCons(head, Split(rest), "\n\n");
      assert Split(s) == [head] + Split(rest);
    }
  }

  /** The lines, joined by newlines, are the block, and none has a newline of its own. */
  lemma {:induction false} LinesRejoin(s: string)
    ensures Joined(LinesOf(s), "\n") == s
    ensures forall l :: l in LinesOf(s) ==> '\n' !in l
    decreases |s|
  {
    var i := FirstNewline(s);
    if i < |s| {
      LinesRejoin(s[i + 1..]);
      JoinedCons(s[..i], LinesOf(s[i + 1..]), "\n");
      assert s == s[..i] + ("\n" + s[i + 1..]);
    }
  }

  // ---------------------------------------------------------------- trimming cuts white space only

  ghost predicate AllSpace(s: string) {
    forall c :: c in s ==> IsSpace(c)
  }

  lemma {:induction false} StartCut(s: string) returns (before: string)
    ensures s == before + TrimStart(s) && AllSpace(before)
  {
    if s != "" && IsSpace(s[0]) {
      var rest := StartCut(s[1..]);
      before := [s[0]] + rest;
      assert s == [s[0]] + s[1..];
    } else {
      before := "";
    }
  }

  lemma {:induction false} EndCut(s: string) returns (after: string)
    ensures s == TrimEnd(s) + after && AllSpace(after)
  {
    if s != "" && IsSpace(s[|s| - 1]) {
      var rest := EndCut(s[..|s| - 1]);
      after := rest + [s[|s| - 1]];
      assert s == s[..|s| - 1] + [s[|s| - 1]];
    } else {
      after := "";
    }
  }

  /** A trim removes white space from both ends, all of it, and nothing else. */
  lemma TrimMiddle(s: string) returns (before: string, after: string)
    ensures s == before + Trim(s) + after && AllSpace(before) && AllSpace(after)
    ensures Trim(s) == "" || (!IsSpace(Trim(s)[0]) && !IsSpace(Trim(s)[|Trim(s)| - 1]))
  {
    before := StartCut(s);
    after := EndCut(TrimStart(s));
  }

  // ---------------------------------------------------------------- the lines an event is made of

  /** The values of the lines that, once trimmed, begin with the field's name. */
  ghost function Values(lines: seq<string>, name: string): seq<string> {
    if lines == [] then []
    else
      var line := Trim(Last(lines));
      Values(Init(lines), name) + if StartsWith(line, name) then [Trim(line[|name|..])] else []
  }

  ghost function LastOr(values: seq<string>): string {
    if values == [] then "" else Last(values)
  }

  ghost function FromFirstVisible(values: seq<string>): seq<string> {
    if values != [] && values[0] == "" then FromFirstVisible(values[1..]) else values
  }

  /** The data values joined by newlines; those that are empty count only after one that is not. */
  ghost function Payload(values: seq<string>): string {
    Joined(FromFirstVisible(values), "\n")
  }

  lemma ByName(line: string)
    ensures Classify(line).Tipo? <==> StartsWith(line, "event:")
    ensures Classify(line).Dados? <==> StartsWith(line, "data:")
    ensures Classify(line).Id? <==> StartsWith(line, "id:")
    ensures Classify(line).Tipo? ==> Classify(line).v == Trim(line[6..])
    ensures Classify(line).Dados? ==> Classify(line).v == Trim(line[5..])
    ensures Classify(line).Id? ==> Classify(line).v == Trim(line[3..])
  {
    if StartsWith(line, "event:") { assert line[0] == 'e'; }
    if StartsWith(line, "data:") { assert line[0] == 'd'; }
    if StartsWith(line, "id:") { assert line[0] == 'i'; }
  }

  lemma {:induction false} JoinedNext(values: seq<string>, v: string)
    requires values != []
    ensures Joined(values + [v], "\n") == Joined(values, "\n") + "\n" + v
  {
    assert (values + [v])[1..] == values[1..] + [v];
    if |values| == 1 {
      assert values + [v] == [values[0]] + [v];
    } else {
      JoinedNext(values[1..], v);
    }
  }

  lemma {:induction false} VisibleNext(values: seq<string>, v: string)
    ensures FromFirstVisible(values + [v])
            == if FromFirstVisible(values) == [] then FromFirstVisible([v]) else FromFirstVisible(values) + [v]
    ensures FromFirstVisible(values) != [] ==> FromFirstVisible(values)[0] != ""
  {
    if values != [] && values[0] == "" {
      assert (values + [v])[1..] == values[1..] + [v];
      VisibleNext(values[1..], v);
    } else if values == [] {
      assert values + [v] == [v];
    }
  }

  /** One more data line: the first one that is not empty starts the payload, the later ones follow it. */
  lemma PayloadNext(values: seq<string>, v: string)
    ensures Payload(values + [v]) == if Payload(values) != "" then Payload(values) + "\n" + v else v
  {
    VisibleNext(values, v);
    var visible := FromFirstVisible(values);
    if visible == [] {
      assert [v][1..] == [];
    } else {
      JoinedNext(visible, v);
    }
  }

  ghost function FieldsOf(lines: seq<string>): Fields {
    Fields(LastOr(Values(lines, "event:")), Payload(Values(lines, "data:")), LastOr(Values(lines, "id:")))
  }

  lemma ValuesNext(lines: seq<string>, name: string)
    requires lines != []
    ensures var line := Trim(Last(lines));
            Values(lines, name)
            == if StartsWith(line, name) then Values(Init(lines), name) + [Trim(line[|name|..])]
               else Values(Init(lines), name)
  {
    EmptyLast(Values(Init(lines), name));
  }

  lemma OneMoreLine(lines: seq<string>)
    requires lines != []
    ensures FieldsOf(lines) == TakeLine(FieldsOf(Init(lines)), Last(lines))
  {
    var line := Trim(Last(lines));
    ByName(line);
    ValuesNext(lines, "event:");
    ValuesNext(lines, "data:");
    ValuesNext(lines, "id:");
    if StartsWith(line, "data:") {
      PayloadNext(Values(Init(lines), "data:"), Trim(line[5..]));
    }
  }

  /** The parser's fields are the last type, the last id and the joined data of the block's lines. */
  lemma {:induction false} FieldsAre(lines: seq<string>)
    ensures TakeLines(Fields("", "", ""), lines) == FieldsOf(lines)
  {
    if lines != [] {
      FieldsAre(Init(lines));
      OneMoreLine(lines);
    }
  }

  /** A block dispatches an event exactly when its last `event:` line and its joined `data:` lines
      both say something. The event is these two, under the last `id:` if that says something and
      under the id made up otherwise; comments, unknown fields and empty lines change nothing. */
  lemma BlockMeans(block: string, reserva: string)
    ensures var lines := LinesOf(block);
            var tipo, dados, id :=
              LastOr(Values(lines, "event:")), Payload(Values(lines, "data:")), LastOr(Values(lines, "id:"));
            ParseBlock(block, reserva)
            == if tipo == "" || dados == "" then None
               else Some(Evento(tipo, dados, if id == "" then reserva else id))
  {
    FieldsAre(LinesOf(block));
  }

  /** What the listeners receive, block by block. */
  lemma DispatchParts(blocks: seq<string>, block: string, reserva: string)
    ensures Dispatch([], reserva) == []
    ensures Dispatch(blocks + [block], reserva)
            == Dispatch(blocks, reserva)
               + match ParseBlock(block, reserva) case None => [] case Some(e) => [e]
  {
    assert Init(blocks + [block]) == blocks;
  }
}
