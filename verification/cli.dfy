/** The command-line entry point: an image path and a recognition-result
    path, in that order. The file system is given as two maps: the height of
    each readable image, and the parsed result of each result file that
    exists and parses. */
module Cli {
  import opened Annotator
  import Paths

  /** How a run ends: the usage text, a fault on a file that cannot be
      read (a missing image or result file, or a result file that does not
      parse), or an annotated image. */
  datatype Outcome = Usage | Unreadable(path: string) | Annotated(result: Annotation)

  function Main(args: seq<string>, imageHeights: map<string, int>,
                results: map<string, ResultDocument>): (o: Outcome)
    requires |args| >= 2 && args[0] in imageHeights && args[1] in results
             ==> DocumentReadable(results[args[1]])
    ensures o.Usage? <==> |args| < 2
    ensures o.Unreadable? ==>
              if args[0] in imageHeights then o.path == args[1] && args[1] !in results
              else o.path == args[0]
    ensures o.Annotated? <==> |args| >= 2 && args[0] in imageHeights && args[1] in results
    ensures o.Annotated? ==> o.result.outputName == Paths.OutPrefix + Paths.Basename(args[0])
    ensures o.Annotated? ==>
              o.result.lines == ExpectedLines(results[args[1]].pages[0].keyValuePairs)
              && |o.result.draws| == |o.result.lines|
              && forall i :: 0 <= i < |o.result.draws| ==> o.result.draws[i].text == o.result.lines[i]
  {
    if |args| < 2 then Usage
    else if args[0] !in imageHeights then Unreadable(args[0])
    else if args[1] !in results then Unreadable(args[1])
    else
      DrawBoxesLines(args[0], imageHeights[args[0]], results[args[1]]);
      Annotated(DrawBoxes(args[0], imageHeights[args[0]], results[args[1]]))
  }

  /** With fewer than two arguments no file is looked at: the outcome is the
      same whatever the file system holds. */
  lemma UsageTouchesNoFile(args: seq<string>,
                           heights1: map<string, int>, results1: map<string, ResultDocument>,
                           heights2: map<string, int>, results2: map<string, ResultDocument>)
    requires |args| < 2
    ensures Main(args, heights1, results1) == Main(args, heights2, results2) == Usage
  {
  }

  /** Arguments after the second are ignored. */
  lemma ExtraArgumentsIgnored(args: seq<string>, extra: seq<string>,
                              imageHeights: map<string, int>, results: map<string, ResultDocument>)
    requires |args| == 2
    requires args[0] in imageHeights && args[1] in results ==> DocumentReadable(results[args[1]])
    ensures (args + extra)[..2] == args
    ensures Main(args + extra, imageHeights, results) == Main(args, imageHeights, results)
  {
  }
}
