/**
 * The records the components exchange: task status, tasks, upload results,
 * configuration blocks and the remote service's record pages.
 */
module Types {

  datatype Option<+T> = None | Some(value: T)

  datatype Result<+T, +E> = Ok(value: T) | Err(error: E)

  /** A string argument as a JavaScript caller passes it: possibly `undefined`. */
  datatype Text = Undefined | Defined(s: string)

  datatype TaskStatus = PENDING | RUNNING | COMPLETED | SKIPPED

  /** COMPLETED and SKIPPED are the states `cleanup` removes. */
  predicate IsFinished(s: TaskStatus)
  {
    s == COMPLETED || s == SKIPPED
  }

  /**
   * A JSON-like value as the remote service returns it in a record's fields.
   * Numbers are modelled as integers.
   */
  datatype Json =
    | JUndefined
    | JNull
    | JBool(b: bool)
    | JNum(n: int)
    | JStr(s: string)
    | JArr(elems: seq<Json>)
    | JObj(props: map<string, Json>)

  /** The names of the four columns read from each remote record. */
  datatype FeishuFields = FeishuFields(status: string, account: string, drama: string, date: string)

  /**
   * Configuration blocks as parsed from the JSON file. A string field that is
   * missing is modelled as the empty string: both are falsy, and validation
   * only tests truthiness. A missing block is `None`.
   */
  datatype FeishuConfig = FeishuConfig(
    app_id: string, app_secret: string, app_token: string, table_id: string,
    base_url: string, fields: Option<FeishuFields>)

  datatype LocalConfig = LocalConfig(rootDir: string)

  datatype DouyinConfig = DouyinConfig(baseUploadUrl: string)

  datatype UploaderSelectors = UploaderSelectors(
    uploadButton: string, uploadPanel: string, confirmButton: string, cancelButton: string)

  /** `batchSize` is `None` when the key is missing. */
  datatype UploaderConfig = UploaderConfig(
    batchSize: Option<int>, batchDelayMin: int, batchDelayMax: int,
    selectors: Option<UploaderSelectors>)

  datatype SchedulerConfig = SchedulerConfig(fetchIntervalMinutes: Option<int>)

  datatype PlaywrightConfig = PlaywrightConfig(headless: bool, slowMo: int, userDataDir: string)

  datatype Config = Config(
    feishu: Option<FeishuConfig>,
    local: Option<LocalConfig>,
    douyin: Option<DouyinConfig>,
    uploader: Option<UploaderConfig>,
    scheduler: Option<SchedulerConfig>,
    playwright: Option<PlaywrightConfig>)

  /** One row of the remote table: its identifier and its raw field values. */
  datatype FeishuRecord = FeishuRecord(record_id: string, fields: map<string, Json>)

  /** One page of a record search; `items` is `None` when the key is missing. */
  datatype FeishuRecordListResponse = FeishuRecordListResponse(
    has_more: bool, page_token: Option<string>, total: int, items: Option<seq<FeishuRecord>>)

  /** A parsed record, as handed to the scheduler. */
  datatype FeishuRecordData = FeishuRecordData(
    recordId: string, drama: string, date: string, account: string, status: string)

  /** The result of uploading one work item's files. */
  datatype UploadResult = UploadResult(
    success: bool, totalFiles: nat, uploadedBatches: nat, error: Option<string>)

  /**
   * A work item in the queue. Its identity fields never change; the queue
   * worker updates status, localPath, mp4Files and error in place.
   */
  class Task {
    const id: string
    const recordId: string
    const drama: string
    const date: string
    const account: string
    var status: TaskStatus
    var localPath: Option<string>
    var mp4Files: Option<seq<string>>
    var error: Option<string>

    constructor (id: string, recordId: string, drama: string, date: string, account: string,
                 status: TaskStatus)
      ensures this.id == id && this.recordId == recordId && this.drama == drama
      ensures this.date == date && this.account == account && this.status == status
      ensures localPath == None && mp4Files == None && error == None
    {
      this.id := id;
      this.recordId := recordId;
      this.drama := drama;
      this.date := date;
      this.account := account;
      this.status := status;
      localPath := None;
      mp4Files := None;
      error := None;
    }
  }
}
