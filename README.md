# DICOM JSON error reports

This project is a Dafny model of the error-reporting layer of the dcmfx DICOM JSON converter (`dcmfx_json`). The layer has two error types:

- `JsonSerializeError` is raised while converting a data set to DICOM JSON. Exactly one cause is active: a data error, a P10 error or an I/O error.
- `JsonDeserializeError::JsonInvalid { details, path }` is raised while converting DICOM JSON into a data set.

Each error renders itself as a report through `to_lines(task_description)`. The deserialize error also has a one-line `Display`.

Modules:

- `Wrappers` defines `Option`.
- `ReportText` defines the report conventions shared by the toolkit:
  - detail lines read `"  <Label>: <value>"`;
  - a report names its task verbatim on its first line.
- `Collaborators` holds everything the reports use from other crates, as function values:
  - from `DataSetPath`: `is_empty`, `final_data_element`, `to_detailed_string` and `Display`;
  - tag `Display` and `dictionary::tag_name`;
  - the `to_lines` of `DataError` and `P10Error`;
  - the `Display` of an I/O error.

  The reports take these functions as parameters. So every property below holds for every behaviour of these collaborators. In particular, nothing ties `final_data_element` to `is_empty`.
- `JsonError` holds the two error types and their renderings.
  - The serialize `to_lines` and `Display` are functions.
  - The deserialize `to_lines` is a method that appends lines one by one, as the source does. It is proved equal to the function `DeserializeReport`, and the lemmas state their properties about that function.

## Model

| member | source | states |
|---|---|---|
| `JsonError.SerializeToLines` | src/rust/dcmfx_json/src/json_error.rs:52-62 | An I/O cause gives exactly three lines: `"DICOM JSON I/O error " + task`, a blank line, and an `Error` detail line whose value is the I/O error's text. |
| `JsonError.SerializeDelegates` | src/rust/dcmfx_json/src/json_error.rs:54-55 | For a data or P10 cause, the report is exactly the wrapped error's own `to_lines(task)`. No line is added, removed or changed. |
| `JsonError.SerializeReportDescribesTask` | src/rust/dcmfx_json/src/json_error.rs:53-61 | Every serialize report is non-empty and contains the task verbatim on its first line. For an I/O cause this always holds. For a data or P10 cause it holds whenever the wrapped error's report follows that convention. |
| `JsonError.Display` | src/rust/dcmfx_json/src/json_error.rs:33-46 | The one-line text is `"DICOM JSON deserialize error, details: " + details + ", path: " + <path detailed string>`. Given the path's detailed text, `DetailsFromDisplay` reads `details` back out of it. |
| `JsonError.DetailsFromDisplay` | src/rust/dcmfx_json/src/json_error.rs:37-42 | Any details it accepts rebuild the input exactly: prefix, details, `", path: "`, path text. |
| `JsonError.DeserializeReport` | src/rust/dcmfx_json/src/json_error.rs:69-91 | The deserialize report has 3 lines, plus 2 if the path ends in a data element, plus 1 if the path is non-empty, so 3 to 6 lines. It opens with `"DICOM JSON deserialize error " + task`, a blank line, and a `Details` line whose value is `details`. |
| `JsonError.DeserializeToLines` | src/rust/dcmfx_json/src/json_error.rs:72-88 | Building the report step by step (summary, blank, Details, then guarded Tag/Name pushes and a guarded Path push) yields exactly `DeserializeReport`. |
| `JsonError.DeserializeReportDescribesTask` | src/rust/dcmfx_json/src/json_error.rs:74-75 | The deserialize report is non-empty and contains the task verbatim on its first line. |
| `JsonError.TagAndNameLines` | src/rust/dcmfx_json/src/json_error.rs:79-82 | A `Tag` line and a `Name` line each appear if and only if `final_data_element` gives a tag. When they appear, they sit at positions 3 and 4, right after Details: the tag's text, then `tag_name(tag, None)`. |
| `JsonError.PathLine` | src/rust/dcmfx_json/src/json_error.rs:84-86 | A `Path` line appears if and only if the path is non-empty. When it appears, it is the last line and carries the path's `Display` text. |
| `JsonError.DisplayAgreesWithReport` | src/rust/dcmfx_json/src/json_error.rs:37-42 | The one-line text and the report's Details line (line 77 of the same file) expose the same `details` string: it is read back from both, and it sits right after the Display prefix. |
| `ReportText.DetailLine` | src/rust/dcmfx_json/src/json_error.rs:77 | A detail line `"  <Label>: <value>"` carries its label, and its value reads back unchanged. |

## Left out

- The internals of `DataSetPath` (`is_empty`, `final_data_element`, `to_detailed_string`, `Display`) are left out. They live in the core crate, which is not part of this model, so they are parameters.
- `final_data_element` returns a `Result` in the source. Only whether it holds a tag matters here, so it is modelled as an `Option`.
- `dictionary::tag_name` and tag formatting are left out. They are a dictionary lookup and formatting in the core crate, which is not part of this model.
- The `to_lines` of `DataError` and `P10Error` are left out. They are only delegated to here, so they are parameters.
- The `Display` text of `std::io::Error` is left out. It depends on the platform and the OS, so it is a parameter.
- `#[derive(Debug)]`, `Formatter`/`fmt::Result` plumbing, and the `DcmfxError` trait machinery beyond the `to_lines` signature are left out. They have no behaviour of their own.
- Calling `to_lines` twice gives the same report. This holds because the model's renderings are functions, so no lemma states it.
