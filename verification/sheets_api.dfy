/** The spreadsheet REST service as the rest of the extension sees it: the
    replies its calls can give. Nothing here talks to a network; every
    pipeline receives these replies as inputs. */
module SheetsApi {
  import opened Values

  /** A rectangular range as the API returns it: rows of cell strings. */
  type Grid = seq<seq<string>>

  /** Reply to `readRange`. A successful read may carry no `values` at all
      (the API omits the field for an empty range). */
  datatype ReadReply = ReadOk(values: Option<Grid>) | ReadFailed(error: string)

  /** Reply to `updateRange`. */
  datatype WriteReply = WriteOk | WriteFailed(error: string)

  /** Reply to `appendData`: `updates.updatedRows` may be missing. */
  datatype AppendReply = AppendOk(updatedRows: Option<int>) | AppendFailed(error: string)

  /** Reply to `getSpreadsheetMetadata`. */
  datatype MetadataReply = MetadataOk | MetadataFailed(error: string)

  /** One `updateRange` / `appendData` call issued by a pipeline. */
  datatype WriteCall = WriteCall(range: string, values: Grid)
}
