/**
 * The errors of the DICOM JSON converter and the reports they render:
 * `JsonSerializeError` (converting a data set to DICOM JSON) and
 * `JsonDeserializeError` (converting DICOM JSON to a data set), their
 * `to_lines` reports and the one-line `Display` of the deserialize error.
 */
module JsonError {
  import opened Wrappers
  import opened ReportText
  import opened Collaborators

  /** A failure while converting to the DICOM JSON model: exactly one cause. */
  datatype JsonSerializeError<DataErr, P10Err, IoErr> =
    | DataError(dataError: DataErr)
    | P10Error(p10Error: P10Err)
    | IOError(ioError: IoErr)

  /** A failure while converting from the DICOM JSON model. */
  datatype JsonDeserializeError<Path> =
    | JsonInvalid(details: string, path: Path)

  const IoSummary: string := "DICOM JSON I/O error "
  const DeserializeSummary: string := "DICOM JSON deserialize error "
  const DisplayPrefix: string := "DICOM JSON deserialize error, details: "
  const DisplayPathSeparator: string := ", path: "

  // ---------------------------------------------------------------------
  // JsonSerializeError::to_lines

  /**
   * The report of a serialize error. The data and P10 causes are reported by
   * their own `to_lines`; an I/O cause gets a three-line report whose
   * "Error" line carries the I/O error's text.
   */
  function SerializeToLines<DataErr, P10Err, IoErr>(
    e: JsonSerializeError<DataErr, P10Err, IoErr>,
    leaf: LeafReporting<DataErr, P10Err, IoErr>,
    task: string
  ): (lines: seq<string>)
    ensures e.IOError? ==>
      && |lines| == 3
      && lines[0] == IoSummary + task
      && lines[1] == ""
      && HasLabel(lines[2], "Error")
      && LabelValue(lines[2], "Error") == leaf.ioErrorDisplay(e.ioError)
  {
    match e
    case DataError(err) => leaf.dataErrorToLines(err, task)
    case P10Error(err) => leaf.p10ErrorToLines(err, task)
    case IOError(err) => [IoSummary + task, "", DetailLine("Error", leaf.ioErrorDisplay(err))]
  }

  /** The data and P10 causes are passed through untouched. */
  lemma SerializeDelegates<DataErr, P10Err, IoErr>(
    e: JsonSerializeError<DataErr, P10Err, IoErr>,
    leaf: LeafReporting<DataErr, P10Err, IoErr>,
    task: string
  )
    ensures e.DataError? ==> SerializeToLines(e, leaf, task) == leaf.dataErrorToLines(e.dataError, task)
    ensures e.P10Error? ==> SerializeToLines(e, leaf, task) == leaf.p10ErrorToLines(e.p10Error, task)
  {
  }

  /**
   * A serialize report names the task on its first line: always for an I/O
   * cause, and for the other causes whenever the wrapped error's own report
   * does.
   */
  lemma SerializeReportDescribesTask<DataErr, P10Err, IoErr>(
    e: JsonSerializeError<DataErr, P10Err, IoErr>,
    leaf: LeafReporting<DataErr, P10Err, IoErr>,
    task: string
  )
    requires e.DataError? ==> DescribesTask(leaf.dataErrorToLines(e.dataError, task), task)
    requires e.P10Error? ==> DescribesTask(leaf.p10ErrorToLines(e.p10Error, task), task)
    ensures DescribesTask(SerializeToLines(e, leaf, task), task)
  {
    if e.IOError? {
      SummaryContainsTask(IoSummary, task);
    }
  }

  // ---------------------------------------------------------------------
  // Display for JsonDeserializeError

  /** The one-line rendering of a deserialize error. */
  function Display<Path, Tag>(e: JsonDeserializeError<Path>, ps: PathServices<Path, Tag>): (text: string)
    ensures DetailsFromDisplay(text, ps.toDetailedString(e.path)) == Some(e.details)
  {
    var tail := DisplayPathSeparator + ps.toDetailedString(e.path);
    var text := DisplayPrefix + e.details + tail;
    assert text[..|DisplayPrefix|] == DisplayPrefix;
    assert text[|text| - |tail|..] == tail;
    assert text[|DisplayPrefix|..|text| - |tail|] == e.details;
    text
  }

  /**
   * Reads the details back out of a one-line rendering, given the path's
   * detailed text; `None` when `text` is not such a rendering.
   */
  function DetailsFromDisplay(text: string, pathText: string): (details: Option<string>)
    ensures details.Some? ==> text == DisplayPrefix + details.value + DisplayPathSeparator + pathText
  {
    var tail := DisplayPathSeparator + pathText;
    if |DisplayPrefix| + |tail| <= |text|
       && text[..|DisplayPrefix|] == DisplayPrefix
       && text[|text| - |tail|..] == tail
    then
      var details := text[|DisplayPrefix|..|text| - |tail|];
      assert text == text[..|DisplayPrefix|] + details + text[|text| - |tail|..];
      Some(details)
    else
      None
  }

  // ---------------------------------------------------------------------
  // JsonDeserializeError::to_lines

  /** The Tag and Name lines, present when the path ends in a data element. */
  function ElementLines<Path, Tag>(ps: PathServices<Path, Tag>, path: Path): seq<string>
  {
    match ps.finalDataElement(path)
    case Some(tag) => [DetailLine("Tag", ps.tagDisplay(tag)), DetailLine("Name", ps.tagName(tag, None))]
    case None => []
  }

  /** The Path line, present when the path is not empty. */
  function PathLines<Path, Tag>(ps: PathServices<Path, Tag>, path: Path): seq<string>
  {
    if ps.isEmpty(path) then [] else [DetailLine("Path", ps.display(path))]
  }

  /**
   * The report of a deserialize error: summary, blank line and Details line,
   * then the Tag and Name lines and the Path line, each pair only when it
   * applies.
   */
  function DeserializeReport<Path, Tag>(
    e: JsonDeserializeError<Path>,
    ps: PathServices<Path, Tag>,
    task: string
  ): (lines: seq<string>)
    ensures |lines| == 3
      + (if ps.finalDataElement(e.path).Some? then 2 else 0)
      + (if ps.isEmpty(e.path) then 0 else 1)
    ensures 3 <= |lines| <= 6
    ensures lines[0] == DeserializeSummary + task
    ensures lines[1] == ""
    ensures HasLabel(lines[2], "Details") && LabelValue(lines[2], "Details") == e.details
  {
    [DeserializeSummary + task, "", DetailLine("Details", e.details)]
      + ElementLines(ps, e.path)
      + PathLines(ps, e.path)
  }

  /** Builds the deserialize report line by line. */
  method DeserializeToLines<Path, Tag>(
    e: JsonDeserializeError<Path>,
    ps: PathServices<Path, Tag>,
    task: string
  ) returns (lines: seq<string>)
    ensures lines == DeserializeReport(e, ps, task)
  {
    match e
    case JsonInvalid(details, path) =>
      lines := [];
      lines := lines + [DeserializeSummary + task];
      lines := lines + [""];
      lines := lines + [DetailLine("Details", details)];
      var element := ps.finalDataElement(path);
      if element.Some? {
        var tag := element.value;
        lines := lines + [DetailLine("Tag", ps.tagDisplay(tag))];
        lines := lines + [DetailLine("Name", ps.tagName(tag, None))];
      }
      if !ps.isEmpty(path) {
        lines := lines + [DetailLine("Path", ps.display(path))];
      }
  }

  /** A deserialize report is never empty and names the task on its first line. */
  lemma DeserializeReportDescribesTask<Path, Tag>(
    e: JsonDeserializeError<Path>,
    ps: PathServices<Path, Tag>,
    task: string
  )
    ensures DescribesTask(DeserializeReport(e, ps, task), task)
  {
    SummaryContainsTask(DeserializeSummary, task);
  }

  /**
   * The Tag and Name lines appear exactly when the path ends in a data
   * element, and then they follow the Details line, Tag first, naming the
   * tag and its dictionary name.
   */
  lemma TagAndNameLines<Path, Tag>(
    e: JsonDeserializeError<Path>,
    ps: PathServices<Path, Tag>,
    task: string
  )
    ensures HasLabelledLine(DeserializeReport(e, ps, task), "Tag") <==> ps.finalDataElement(e.path).Some?
    ensures HasLabelledLine(DeserializeReport(e, ps, task), "Name") <==> ps.finalDataElement(e.path).Some?
    ensures ps.finalDataElement(e.path).Some? ==>
      var tag := ps.finalDataElement(e.path).value;
      && DeserializeReport(e, ps, task)[3] == DetailLine("Tag", ps.tagDisplay(tag))
      && DeserializeReport(e, ps, task)[4] == DetailLine("Name", ps.tagName(tag, None))
  {
    var lines := DeserializeReport(e, ps, task);
    var element := ps.finalDataElement(e.path);
    if element.Some? {
      assert HasLabel(lines[3], "Tag");
      assert HasLabel(lines[4], "Name");
    } else {
      forall i | 0 <= i < |lines|
        ensures !HasLabel(lines[i], "Tag") && !HasLabel(lines[i], "Name")
      {
        if i == 0 {
          UnindentedHasNoLabel(lines[0], "Tag");
          UnindentedHasNoLabel(lines[0], "Name");
        } else if i == 1 {
          UnindentedHasNoLabel(lines[1], "Tag");
          UnindentedHasNoLabel(lines[1], "Name");
        } else if i == 2 {
          LabelsExclusive(lines[2], "Details", "Tag");
          LabelsExclusive(lines[2], "Details", "Name");
        } else {
          assert lines[i] == DetailLine("Path", ps.display(e.path));
          LabelsExclusive(lines[i], "Path", "Tag");
          LabelsExclusive(lines[i], "Path", "Name");
        }
      }
    }
  }

  /**
   * The Path line appears exactly when the path is not empty, and then it is
   * the last line and carries the path's display text.
   */
  lemma PathLine<Path, Tag>(
    e: JsonDeserializeError<Path>,
    ps: PathServices<Path, Tag>,
    task: string
  )
    ensures HasLabelledLine(DeserializeReport(e, ps, task), "Path") <==> !ps.isEmpty(e.path)
    ensures !ps.isEmpty(e.path) ==>
      var lines := DeserializeReport(e, ps, task);
      lines[|lines| - 1] == DetailLine("Path", ps.display(e.path))
  {
    var lines := DeserializeReport(e, ps, task);
    if !ps.isEmpty(e.path) {
      assert HasLabel(lines[|lines| - 1], "Path");
    } else {
      forall i | 0 <= i < |lines|
        ensures !HasLabel(lines[i], "Path")
      {
        if i < 2 {
          UnindentedHasNoLabel(lines[i], "Path");
        } else if i == 2 {
          LabelsExclusive(lines[2], "Details", "Path");
        } else {
          if i == 3 {
            LabelsExclusive(lines[3], "Tag", "Path");
          } else {
            LabelsExclusive(lines[4], "Name", "Path");
          }
        }
      }
    }
  }

  /**
   * The one-line rendering and the report expose the same details text: the
   * Details line of the report and the rendering both give back `details`.
   */
  lemma DisplayAgreesWithReport<Path, Tag>(
    e: JsonDeserializeError<Path>,
    ps: PathServices<Path, Tag>,
    task: string
  )
    ensures var lines := DeserializeReport(e, ps, task);
      && DetailsFromDisplay(Display(e, ps), ps.toDetailedString(e.path)) == Some(LabelValue(lines[2], "Details"))
      && Display(e, ps)[|DisplayPrefix|..|DisplayPrefix| + |e.details|] == LabelValue(lines[2], "Details")
  {
  }
}
