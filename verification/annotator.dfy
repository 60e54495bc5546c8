/** The annotator: walks the key/value records of the first page of a
    form-recognition result and, for each record, draws a labelled box on
    the image and prints the label, in document order.

    Drawing and printing are side effects of the original program. Here they
    are an ordered trace of effects; the draw commands and the console lines
    are the two projections of that trace. */
module Annotator {
  import opened Text
  import opened Geometry
  import Paths

  /** One recognised piece of text and the box around it. */
  datatype Span = Span(text: string, boundingBox: seq<real>)

  /** One extracted form field: its label spans and its value spans. */
  datatype KeyValuePair = KeyValuePair(key: seq<Span>, value: seq<Span>)

  datatype Page = Page(keyValuePairs: seq<KeyValuePair>)

  /** The recognition result, already parsed. */
  datatype ResultDocument = ResultDocument(pages: seq<Page>)

  /** Keys whose text contains this are markers: never boxed themselves. */
  const MarkerTag: string := "_Tokens_"

  /** Values whose text contains this are skipped altogether. */
  const WatermarkTag: string := "thisisawatermark"

  predicate IsMarker(text: string)
  {
    Contains(text, MarkerTag)
  }

  predicate IsWatermark(text: string)
  {
    Contains(text, WatermarkTag)
  }

  /** Stroke colours the annotator uses: the graphics library's "blue" and "purple". */
  datatype Colour = Blue | Purple

  datatype Rgba = Rgba(red: nat, green: nat, blue: nat, alpha: nat)

  /** Every box is outlined one unit wide and filled half-transparent dark grey. */
  const StrokeWidth: nat := 1
  const BoxFill: Rgba := Rgba(50, 50, 50, 128)

  /** One call into the graphics library: a filled, outlined rectangle and a
      text label, both in the stroke colour. */
  datatype DrawCmd = DrawCmd(stroke: Colour, strokeWidth: nat, fill: Rgba,
                             rect: Rect, anchor: Point, text: string)

  /** A visible side effect of the annotator, in the order it happens. */
  datatype Effect = Draw(cmd: DrawCmd) | Print(line: string)

  /** What one run leaves behind: the file name the annotated image is
      written under, the draw calls on it, and the console lines. */
  datatype Annotation = Annotation(outputName: string, draws: seq<DrawCmd>, lines: seq<string>)

  // ---------------------------------------------------------------------
  // What the loop reads
  // ---------------------------------------------------------------------

  /** Every value span that is not skipped has a full bounding box. Skipped
      spans may have any box, because theirs is never read. */
  predicate ValuesReadable(values: seq<Span>)
  {
    forall s :: s in values && !IsWatermark(s.text) ==> HasCorners(s.boundingBox)
  }

  /** A record the loop can process without a fault: it has a key span, the
      key's box is complete unless the key is a marker (whose box is never
      read), and the drawn values have complete boxes. */
  predicate Readable(kv: KeyValuePair)
  {
    && |kv.key| >= 1
    && (!IsMarker(kv.key[0].text) ==> HasCorners(kv.key[0].boundingBox))
    && ValuesReadable(kv.value)
  }

  predicate AllReadable(kvs: seq<KeyValuePair>)
  {
    forall kv :: kv in kvs ==> Readable(kv)
  }

  /** The document has a first page whose records are all readable. */
  predicate DocumentReadable(doc: ResultDocument)
  {
    |doc.pages| >= 1 && AllReadable(doc.pages[0].keyValuePairs)
  }

  // ---------------------------------------------------------------------
  // Drawing one span
  // ---------------------------------------------------------------------

  /** The draw call for one span: its box converted to the drawing surface,
      its text anchored at the box's top-left corner. */
  function LabelAndBox(height: int, span: Span, colour: Colour): (cmd: DrawCmd)
    requires HasCorners(span.boundingBox)
    ensures cmd.stroke == colour && cmd.text == span.text
    ensures cmd.strokeWidth == StrokeWidth && cmd.fill == BoxFill
    ensures cmd.rect == BoxRect(height, span.boundingBox)
    ensures cmd.anchor == cmd.rect.TopLeft()
  {
    DrawCmd(colour, StrokeWidth, BoxFill,
            BoxRect(height, span.boundingBox), LabelAnchor(height, span.boundingBox), span.text)
  }

  /** Drawing a span is always followed at once by printing its text. */
  function Emit(height: int, span: Span, colour: Colour): (t: seq<Effect>)
    requires HasCorners(span.boundingBox)
  {
    [Draw(LabelAndBox(height, span, colour)), Print(span.text)]
  }

  // ---------------------------------------------------------------------
  // The record loop
  // ---------------------------------------------------------------------

  /** The colour the values of a record are drawn in, chosen by its key. */
  function ValueColour(keyText: string): (c: Colour)
    ensures c == Purple <==> IsMarker(keyText)
  {
    if IsMarker(keyText) then Purple else Blue
  }

  /** The inner loop over a record's value spans. */
  function ValueEffects(height: int, colour: Colour, values: seq<Span>): (t: seq<Effect>)
    requires ValuesReadable(values)
    ensures Paired(t)
    decreases |values|
  {
    if |values| == 0 then []
    else
      var v := values[0];
      var rest := ValueEffects(height, colour, values[1..]);
      if IsWatermark(v.text) then rest
      else
        PairedConcat(Emit(height, v, colour), rest);
        Emit(height, v, colour) + rest
  }

  /** The body of the record loop: the key (unless it is a marker), then its values. */
  function RecordEffects(height: int, kv: KeyValuePair): (t: seq<Effect>)
    requires Readable(kv)
    ensures Paired(t)
  {
    var key := kv.key[0];
    var values := ValueEffects(height, ValueColour(key.text), kv.value);
    if IsMarker(key.text) then values
    else
      PairedConcat(Emit(height, key, Blue), values);
      Emit(height, key, Blue) + values
  }

  /** The record loop, over the records in document order. */
  function RecordsEffects(height: int, kvs: seq<KeyValuePair>): (t: seq<Effect>)
    requires AllReadable(kvs)
    ensures Paired(t)
    decreases |kvs|
  {
    if |kvs| == 0 then []
    else
      var first := RecordEffects(height, kvs[0]);
      var rest := RecordsEffects(height, kvs[1..]);
      PairedConcat(first, rest);
      first + rest
  }

  /** A whole run on an image `height` units tall: only the first page's
      records are visited. */
  function DrawBoxes(imagePath: string, height: int, doc: ResultDocument): (a: Annotation)
    requires DocumentReadable(doc)
    ensures |a.draws| == |a.lines|
    ensures forall i :: 0 <= i < |a.lines| ==> a.lines[i] == a.draws[i].text
    ensures |a.outputName| >= |Paths.OutPrefix| && a.outputName[..|Paths.OutPrefix|] == Paths.OutPrefix
  {
    var t := RecordsEffects(height, doc.pages[0].keyValuePairs);
    PairedProjections(t);
    Annotation(Paths.OutputName(imagePath), Draws(t), Prints(t))
  }

  // ---------------------------------------------------------------------
  // Traces: pairing and projections
  // ---------------------------------------------------------------------

  /** Every draw is immediately followed by a print of its own label, and
      nothing else is printed. */
  predicate Paired(t: seq<Effect>)
    decreases |t|
  {
    |t| == 0 || (|t| >= 2 && t[0].Draw? && t[1] == Print(t[0].cmd.text) && Paired(t[2..]))
  }

  lemma {:induction false} PairedConcat(a: seq<Effect>, b: seq<Effect>)
    requires Paired(a) && Paired(b)
    ensures Paired(a + b)
    decreases |a|
  {
    if |a| > 0 {
      PairedConcat(a[2..], b);
      assert (a + b)[2..] == a[2..] + b;
    } else {
      assert a + b == b;
    }
  }

  /** The draw calls of a trace, in order. */
  function Draws(t: seq<Effect>): seq<DrawCmd>
    decreases |t|
  {
    if |t| == 0 then []
    else (if t[0].Draw? then [t[0].cmd] else []) + Draws(t[1..])
  }

  /** The console lines of a trace, in order. */
  function Prints(t: seq<Effect>): seq<string>
    decreases |t|
  {
    if |t| == 0 then []
    else (if t[0].Print? then [t[0].line] else []) + Prints(t[1..])
  }

  lemma {:induction false} DrawsPrintsConcat(a: seq<Effect>, b: seq<Effect>)
    ensures Draws(a + b) == Draws(a) + Draws(b)
    ensures Prints(a + b) == Prints(a) + Prints(b)
    decreases |a|
  {
    if |a| > 0 {
      DrawsPrintsConcat(a[1..], b);
      assert (a + b)[1..] == a[1..] + b;
    } else {
      assert a + b == b;
    }
  }

  /** In a paired trace the console lines are exactly the draw labels, one
      to one and in the same order. */
  lemma {:induction false} PairedProjections(t: seq<Effect>)
    requires Paired(t)
    ensures |Draws(t)| == |Prints(t)|
    ensures forall i :: 0 <= i < |Prints(t)| ==> Prints(t)[i] == Draws(t)[i].text
    decreases |t|
  {
    if |t| > 0 {
      PairedProjections(t[2..]);
      assert t[1..][1..] == t[2..];
      assert Draws(t) == [t[0].cmd] + Draws(t[2..]);
      assert Prints(t) == [t[0].cmd.text] + Prints(t[2..]);
    }
  }

  // ---------------------------------------------------------------------
  // Value spans: filtering, order and colour
  // ---------------------------------------------------------------------

  /** The value spans that are drawn: those not carrying the watermark, in order. */
  function Visible(values: seq<Span>): (r: seq<Span>)
    ensures |r| <= |values|
    ensures forall s :: s in r ==> s in values && !IsWatermark(s.text)
    ensures forall s :: s in values && !IsWatermark(s.text) ==> s in r
    decreases |values|
  {
    if |values| == 0 then []
    else if IsWatermark(values[0].text) then Visible(values[1..])
    else [values[0]] + Visible(values[1..])
  }

  /** Filtering keeps every unwatermarked span as often as it occurs and
      drops every watermarked one. */
  lemma {:induction false} VisibleCounts(values: seq<Span>)
    ensures forall s :: multiset(Visible(values))[s]
                        == (if IsWatermark(s.text) then 0 else multiset(values)[s])
    decreases |values|
  {
    if |values| > 0 {
      VisibleCounts(values[1..]);
      assert values == [values[0]] + values[1..];
    }
  }

  /** Filtering keeps relative order. */
  lemma {:induction false} VisibleConcat(a: seq<Span>, b: seq<Span>)
    ensures Visible(a + b) == Visible(a) + Visible(b)
    decreases |a|
  {
    if |a| > 0 {
      VisibleConcat(a[1..], b);
      assert (a + b)[1..] == a[1..] + b;
      assert (a + b)[0] == a[0];
      var head := if IsWatermark(a[0].text) then [] else [a[0]];
      assert Visible(a + b) == head + Visible(a[1..] + b);
      assert Visible(a) == head + Visible(a[1..]);
      assert head + (Visible(a[1..]) + Visible(b)) == (head + Visible(a[1..])) + Visible(b);
    } else {
      assert a + b == b;
    }
  }

  predicate AllHaveCorners(spans: seq<Span>)
  {
    forall s :: s in spans ==> HasCorners(s.boundingBox)
  }

  /** Reference definition: draw and print every span given, in order. */
  function EmitAll(height: int, colour: Colour, spans: seq<Span>): (t: seq<Effect>)
    requires AllHaveCorners(spans)
    decreases |spans|
  {
    if |spans| == 0 then [] else Emit(height, spans[0], colour) + EmitAll(height, colour, spans[1..])
  }

  /** Span `i` produces effects `2i` (its draw) and `2i+1` (its print). */
  lemma {:induction false} EmitAllShape(height: int, colour: Colour, spans: seq<Span>)
    requires AllHaveCorners(spans)
    ensures |EmitAll(height, colour, spans)| == 2 * |spans|
    ensures forall i :: 0 <= i < |spans| ==>
              EmitAll(height, colour, spans)[2 * i] == Draw(LabelAndBox(height, spans[i], colour))
              && EmitAll(height, colour, spans)[2 * i + 1] == Print(spans[i].text)
    decreases |spans|
  {
    if |spans| > 0 {
      var rest := spans[1..];
      EmitAllShape(height, colour, rest);
      var t := EmitAll(height, colour, spans);
      forall i | 0 <= i < |spans|
        ensures t[2 * i] == Draw(LabelAndBox(height, spans[i], colour))
        ensures t[2 * i + 1] == Print(spans[i].text)
      {
        if i > 0 {
          assert spans[i] == rest[i - 1];
          assert t[2 * i] == EmitAll(height, colour, rest)[2 * (i - 1)];
          assert t[2 * i + 1] == EmitAll(height, colour, rest)[2 * (i - 1) + 1];
        }
      }
    }
  }

  /** The value loop is exactly: drop the watermarked spans, then draw and
      print each remaining span once, in array order. */
  lemma {:induction false} ValueEffectsIsFilterThenEmit(height: int, colour: Colour, values: seq<Span>)
    requires ValuesReadable(values)
    ensures AllHaveCorners(Visible(values))
    ensures ValueEffects(height, colour, values) == EmitAll(height, colour, Visible(values))
    decreases |values|
  {
    if |values| > 0 {
      ValueEffectsIsFilterThenEmit(height, colour, values[1..]);
    }
  }

  /** A watermarked span contributes nothing, whatever its bounding box. */
  lemma WatermarkSkipped(height: int, colour: Colour, v: Span, values: seq<Span>)
    requires IsWatermark(v.text) && ValuesReadable(values)
    ensures ValuesReadable([v] + values)
    ensures ValueEffects(height, colour, [v] + values) == ValueEffects(height, colour, values)
  {
  }

  /** Every value of one record is drawn in the same colour. */
  lemma {:induction false} ValueColourUniform(height: int, colour: Colour, values: seq<Span>)
    requires ValuesReadable(values)
    ensures forall d :: d in Draws(ValueEffects(height, colour, values)) ==> d.stroke == colour
    decreases |values|
  {
    if |values| > 0 {
      ValueColourUniform(height, colour, values[1..]);
      var v := values[0];
      var rest := ValueEffects(height, colour, values[1..]);
      if !IsWatermark(v.text) {
        DrawsPrintsConcat(Emit(height, v, colour), rest);
        assert Draws(Emit(height, v, colour)) == [LabelAndBox(height, v, colour)];
      }
    }
  }

  // ---------------------------------------------------------------------
  // Records
  // ---------------------------------------------------------------------

  /** A marker key is neither drawn nor printed and its values are purple;
      any other key is drawn in blue and printed first, and its values are blue. */
  lemma RecordEffectsShape(height: int, kv: KeyValuePair)
    requires Readable(kv)
    ensures IsMarker(kv.key[0].text) ==>
              RecordEffects(height, kv) == ValueEffects(height, Purple, kv.value)
    ensures !IsMarker(kv.key[0].text) ==>
              RecordEffects(height, kv)
              == [Draw(LabelAndBox(height, kv.key[0], Blue)), Print(kv.key[0].text)]
                 + ValueEffects(height, Blue, kv.value)
  {
  }

  /** The bounding box of a marker key is never read: replacing it changes nothing. */
  lemma MarkerKeyBoxNeverRead(height: int, kv: KeyValuePair, otherBox: seq<real>)
    requires Readable(kv) && IsMarker(kv.key[0].text)
    ensures Readable(kv.(key := kv.key[0 := kv.key[0].(boundingBox := otherBox)]))
    ensures RecordEffects(height, kv.(key := kv.key[0 := kv.key[0].(boundingBox := otherBox)]))
            == RecordEffects(height, kv)
  {
  }

  /** The lines a record prints: its key unless a marker, then its drawn values. */
  function KeyLine(kv: KeyValuePair): (lines: seq<string>)
    requires |kv.key| >= 1
  {
    if IsMarker(kv.key[0].text) then [] else [kv.key[0].text]
  }

  function Texts(spans: seq<Span>): (r: seq<string>)
    ensures |r| == |spans|
    ensures forall i :: 0 <= i < |spans| ==> r[i] == spans[i].text
  {
    seq(|spans|, i requires 0 <= i < |spans| => spans[i].text)
  }

  /** Reference definition of the console output, record by record in
      document order. */
  function ExpectedLines(kvs: seq<KeyValuePair>): (lines: seq<string>)
    requires AllReadable(kvs)
    decreases |kvs|
  {
    if |kvs| == 0 then []
    else
      assert kvs[0] in kvs;
      KeyLine(kvs[0]) + Texts(Visible(kvs[0].value)) + ExpectedLines(kvs[1..])
  }

  lemma {:induction false} ValuePrints(height: int, colour: Colour, values: seq<Span>)
    requires ValuesReadable(values)
    ensures Prints(ValueEffects(height, colour, values)) == Texts(Visible(values))
    decreases |values|
  {
    if |values| > 0 {
      var v := values[0];
      var rest := ValueEffects(height, colour, values[1..]);
      ValuePrints(height, colour, values[1..]);
      if IsWatermark(v.text) {
        assert ValueEffects(height, colour, values) == rest;
        assert Visible(values) == Visible(values[1..]);
      } else {
        var tail := Visible(values[1..]);
        assert ValueEffects(height, colour, values) == Emit(height, v, colour) + rest;
        DrawsPrintsConcat(Emit(height, v, colour), rest);
        PrintsOfEmit(height, v, colour);
        assert Visible(values) == [v] + tail;
        TextsCons(v, tail);
      }
    }
  }

  lemma PrintsOfEmit(height: int, span: Span, colour: Colour)
    requires HasCorners(span.boundingBox)
    ensures Prints(Emit(height, span, colour)) == [span.text]
  {
    var t := Emit(height, span, colour);
    assert t[1..] == [Print(span.text)];
    assert t[1..][1..] == [];
    assert Prints(t[1..]) == [span.text] + Prints([]);
  }

  lemma TextsCons(span: Span, spans: seq<Span>)
    ensures Texts([span] + spans) == [span.text] + Texts(spans)
  {
  }

  lemma RecordPrints(height: int, kv: KeyValuePair)
    requires Readable(kv)
    ensures Prints(RecordEffects(height, kv)) == KeyLine(kv) + Texts(Visible(kv.value))
  {
    var key := kv.key[0];
    var values := ValueEffects(height, ValueColour(key.text), kv.value);
    ValuePrints(height, ValueColour(key.text), kv.value);
    if !IsMarker(key.text) {
      DrawsPrintsConcat(Emit(height, key, Blue), values);
      assert Prints(Emit(height, key, Blue)) == [key.text];
    }
  }

  /** The console shows, record by record in document order, the key text
      (unless a marker) followed by the drawn value texts in array order. */
  lemma {:induction false} ConsoleOrder(height: int, kvs: seq<KeyValuePair>)
    requires AllReadable(kvs)
    ensures Prints(RecordsEffects(height, kvs)) == ExpectedLines(kvs)
    decreases |kvs|
  {
    if |kvs| > 0 {
      ConsoleOrder(height, kvs[1..]);
      RecordPrints(height, kvs[0]);
      DrawsPrintsConcat(RecordEffects(height, kvs[0]), RecordsEffects(height, kvs[1..]));
    }
  }

  /** Processing records one after another: the effects of a concatenation
      are the effects of each part, in order. */
  lemma {:induction false} RecordsEffectsConcat(height: int, a: seq<KeyValuePair>, b: seq<KeyValuePair>)
    requires AllReadable(a) && AllReadable(b)
    ensures AllReadable(a + b)
    ensures RecordsEffects(height, a + b) == RecordsEffects(height, a) + RecordsEffects(height, b)
    decreases |a|
  {
    if |a| > 0 {
      assert (a + b)[1..] == a[1..] + b;
      RecordsEffectsConcat(height, a[1..], b);
    } else {
      assert a + b == b;
    }
  }

  /** A run's console output, as the reference definition gives it. */
  lemma DrawBoxesLines(imagePath: string, height: int, doc: ResultDocument)
    requires DocumentReadable(doc)
    ensures DrawBoxes(imagePath, height, doc).lines == ExpectedLines(doc.pages[0].keyValuePairs)
  {
    ConsoleOrder(height, doc.pages[0].keyValuePairs);
  }

  /** Pages after the first are never visited. */
  lemma OnlyFirstPage(imagePath: string, height: int, doc: ResultDocument, later: seq<Page>)
    requires DocumentReadable(doc)
    ensures DocumentReadable(ResultDocument([doc.pages[0]] + later))
    ensures DrawBoxes(imagePath, height, ResultDocument([doc.pages[0]] + later))
            == DrawBoxes(imagePath, height, doc)
  {
  }

  /** The output file name depends only on the image path. */
  lemma OutputNameIndependentOfResult(imagePath: string, height1: int, height2: int,
                                      doc1: ResultDocument, doc2: ResultDocument)
    requires DocumentReadable(doc1) && DocumentReadable(doc2)
    ensures DrawBoxes(imagePath, height1, doc1).outputName
            == DrawBoxes(imagePath, height2, doc2).outputName
            == Paths.OutPrefix + Paths.Basename(imagePath)
  {
  }
}
