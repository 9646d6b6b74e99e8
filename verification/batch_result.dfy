/** The result record both batch pipelines return. */
module BatchResults {
  import opened Values

  /** `{ success, processedCount, successCount, errorCount, errors? }`. */
  datatype BatchResult = BatchResult(
    success: bool,
    processedCount: nat,
    successCount: nat,
    errorCount: nat,
    errors: Option<seq<string>>)

  /** `errors.length > 0 ? errors : undefined`. */
  function ErrorsOrUndefined(errors: seq<string>): Option<seq<string>> {
    if |errors| > 0 then Some(errors) else None
  }

  /** The error list a result reports, `[]` when the field is absent. */
  function ErrorList(r: BatchResult): seq<string> {
    r.errors.GetOr([])
  }

  /** The all-zero success a pipeline returns when there is nothing to do. */
  const NothingToDo := BatchResult(true, 0, 0, 0, None)

  /** One call of the feedback pipelines' progress callback:
      `(current, total, currentRow)`. */
  datatype Progress = Progress(current: nat, total: nat, row: nat)
}
