/**
 * What the error reports use from code outside the DICOM JSON crate:
 * the data-set path and the tag dictionary of the core crate, the
 * `to_lines` of the core and P10 leaf errors, and the text of an I/O error.
 * Each is a function value handed to the reports, so nothing here fixes how
 * any of them behaves, and every property of the reports holds for all of
 * them.
 */
module Collaborators {
  import opened Wrappers

  /**
   * The operations of a `DataSetPath` value and of the tag dictionary.
   * Nothing relates `finalDataElement` to `isEmpty`.
   */
  datatype PathServices<!Path, !Tag> = PathServices(
    isEmpty: Path -> bool,
    /** The tag of the data element the path ends in, if it ends in one. */
    finalDataElement: Path -> Option<Tag>,
    toDetailedString: Path -> string,
    /** The path's `Display` text. */
    display: Path -> string,
    /** The tag's `Display` text. */
    tagDisplay: Tag -> string,
    /** `dictionary::tag_name(tag, private_creator)`. */
    tagName: (Tag, Option<string>) -> string
  )

  /** How the three wrapped leaf errors describe themselves. */
  datatype LeafReporting<!DataErr, !P10Err, !IoErr> = LeafReporting(
    dataErrorToLines: (DataErr, string) -> seq<string>,
    p10ErrorToLines: (P10Err, string) -> seq<string>,
    /** The `Display` text of an I/O error. */
    ioErrorDisplay: IoErr -> string
  )
}
