/**
 * The ingestion writer of src/bigquery.ts. The warehouse service is an input:
 * a function from (dataset, table, rows) to the error an insert throws, if any.
 * The client keeps a ghost log of every insert call it makes.
 */
module BigQuery {
  import opened Wrappers
  import opened GitHub

  /** The `json` of a row: the source record's fields plus inserted_at. */
  datatype RowJson =
    | PRJson(info: PRInfo, inserted_at: string)
    | CommentJson(comment: PRComment, inserted_at: string)

  /** `{ insertId, json }`: the insert id is the warehouse's idempotency token. */
  datatype Row = Row(insertId: string, json: RowJson)

  /** One call of `dataset(d).table(t).insert(rows)`. */
  datatype InsertCall = InsertCall(dataset: string, table: string, rows: seq<Row>)

  /** The warehouse as reached with the configured project and access token. */
  datatype Warehouse = Warehouse(insert: (string, string, seq<Row>) -> Option<string>)

  class BigQueryClient {
    const bq: Warehouse
    const datasetId: string
    const tableId: string
    const commentsTableId: string
    ghost var log: seq<InsertCall>

    constructor(bq: Warehouse, datasetId: string, tableId: string, commentsTableId: string)
      ensures this.bq == bq
      ensures this.datasetId == datasetId && this.tableId == tableId && this.commentsTableId == commentsTableId
      ensures log == []
    {
      this.bq := bq;
      this.datasetId := datasetId;
      this.tableId := tableId;
      this.commentsTableId := commentsTableId;
      log := [];
    }

    /** Inserts the single pull request row into the pull request table. */
    method InsertPRInfo(row: Row) returns (err: Option<string>)
      modifies this`log
      ensures log == old(log) + [InsertCall(datasetId, tableId, [row])]
      ensures err == bq.insert(datasetId, tableId, [row])
    {
      err := bq.insert(datasetId, tableId, [row]);
      log := log + [InsertCall(datasetId, tableId, [row])];
    }

    /** Inserts a batch into the comments table; an empty batch makes no call. */
    method InsertPRComments(rows: seq<Row>) returns (err: Option<string>)
      modifies this`log
      ensures rows == [] ==> log == old(log) && err == None
      ensures rows != [] ==> log == old(log) + [InsertCall(datasetId, commentsTableId, rows)]
      ensures rows != [] ==> err == bq.insert(datasetId, commentsTableId, rows)
    {
      if |rows| == 0 {
        return None;
      }
      err := bq.insert(datasetId, commentsTableId, rows);
      log := log + [InsertCall(datasetId, commentsTableId, rows)];
    }
  }
}
