/** Worked examples: one field on an image 500 units tall, and a watermarked value. */
module Walkthrough {
  import opened Geometry
  import opened Annotator

  const NameBox: seq<real> := [45.0, 469.0, 85.0, 469.0, 85.0, 457.0, 45.0, 457.0]

  /** A plain key "Name" with no values: one blue box from (45, 31) down to
      y = 43, and one console line. */
  lemma NameField()
    ensures var doc := ResultDocument([Page([KeyValuePair([Span("Name", NameBox)], [])])]);
            DocumentReadable(doc)
            && DrawBoxes("scans/form.png", 500, doc)
               == Annotation("out-form.png",
                             [DrawCmd(Blue, 1, Rgba(50, 50, 50, 128),
                                      Rect(45.0, 31.0, 85.0, 43.0), Point(45.0, 31.0), "Name")],
                             ["Name"])
  {
    var doc := ResultDocument([Page([KeyValuePair([Span("Name", NameBox)], [])])]);
    var kvs := doc.pages[0].keyValuePairs;
    assert !IsMarker("Name");
    assert RecordsEffects(500, kvs)
           == [Draw(LabelAndBox(500, Span("Name", NameBox), Blue)), Print("Name")];
    ExampleOutputName();
  }

  /** The output name keeps only the file name of the image path. */
  lemma ExampleOutputName()
    ensures Paths.OutputName("scans/form.png") == "out-form.png"
  {
    var name := "form.png";
    assert Paths.NoSeparator(name) by {
      forall i | 0 <= i < |name| ensures !Paths.IsSeparator(name[i]) {
        assert name[i] in "form.png";
      }
    }
    Paths.BasenameUnique("scans/", name);
    assert "scans/form.png" == "scans/" + name;
  }

  /** A value whose text merely starts with the watermark is skipped, even
      with an empty bounding box. */
  lemma WatermarkExtraSkipped(values: seq<Span>)
    requires ValuesReadable(values)
    ensures ValuesReadable([Span("thisisawatermark_extra", [])] + values)
    ensures ValueEffects(0, Blue, [Span("thisisawatermark_extra", [])] + values)
            == ValueEffects(0, Blue, values)
  {
    Text.ContainsInConcat("thisisawatermark", "_extra", WatermarkTag);
    assert "thisisawatermark" + "_extra" == "thisisawatermark_extra";
    WatermarkSkipped(0, Blue, Span("thisisawatermark_extra", []), values);
  }
}
