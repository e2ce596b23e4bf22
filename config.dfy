/** Configuration validation and the loaded-configuration holder. */
module Configuration {
  import opened Types
  import opened Strings
  import Douyin

  /** The validation errors, one per check, in the order the checks run. */
  datatype ConfigError =
    | MissingFeishu | EmptyAppId | EmptyAppSecret | EmptyAppToken | EmptyTableId | EmptyBaseUrl
    | EmptyFields | EmptyStatusField | EmptyAccountField | EmptyDramaField | EmptyDateField
    | MissingLocal | EmptyRootDir
    | MissingDouyin | EmptyUploadUrl | MissingPlaceholder
    | MissingUploader | BadBatchSize | MissingSelectors
    | MissingScheduler | BadFetchInterval
    | MissingPlaywright

  /** Position of each check in the validation sequence. */
  function Rank(e: ConfigError): nat
  {
    match e
    case MissingFeishu => 0
    case EmptyAppId => 1
    case EmptyAppSecret => 2
    case EmptyAppToken => 3
    case EmptyTableId => 4
    case EmptyBaseUrl => 5
    case EmptyFields => 6
    case EmptyStatusField => 7
    case EmptyAccountField => 8
    case EmptyDramaField => 9
    case EmptyDateField => 10
    case MissingLocal => 11
    case EmptyRootDir => 12
    case MissingDouyin => 13
    case EmptyUploadUrl => 14
    case MissingPlaceholder => 15
    case MissingUploader => 16
    case BadBatchSize => 17
    case MissingSelectors => 18
    case MissingScheduler => 19
    case BadFetchInterval => 20
    case MissingPlaywright => 21
  }

  /** `!n || n <= 0` for an optional number: missing, zero or negative. */
  predicate NotPositive(n: Option<int>)
  {
    n.None? || n.value <= 0
  }

  /** The condition under which each error is reported. */
  predicate Violates(c: Config, e: ConfigError)
  {
    match e
    case MissingFeishu => c.feishu.None?
    case EmptyAppId => c.feishu.Some? && c.feishu.value.app_id == ""
    case EmptyAppSecret => c.feishu.Some? && c.feishu.value.app_secret == ""
    case EmptyAppToken => c.feishu.Some? && c.feishu.value.app_token == ""
    case EmptyTableId => c.feishu.Some? && c.feishu.value.table_id == ""
    case EmptyBaseUrl => c.feishu.Some? && c.feishu.value.base_url == ""
    case EmptyFields => c.feishu.Some? && c.feishu.value.fields.None?
    case EmptyStatusField =>
      c.feishu.Some? && c.feishu.value.fields.Some? && c.feishu.value.fields.value.status == ""
    case EmptyAccountField =>
      c.feishu.Some? && c.feishu.value.fields.Some? && c.feishu.value.fields.value.account == ""
    case EmptyDramaField =>
      c.feishu.Some? && c.feishu.value.fields.Some? && c.feishu.value.fields.value.drama == ""
    case EmptyDateField =>
      c.feishu.Some? && c.feishu.value.fields.Some? && c.feishu.value.fields.value.date == ""
    case MissingLocal => c.local.None?
    case EmptyRootDir => c.local.Some? && c.local.value.rootDir == ""
    case MissingDouyin => c.douyin.None?
    case EmptyUploadUrl => c.douyin.Some? && c.douyin.value.baseUploadUrl == ""
    case MissingPlaceholder =>
      c.douyin.Some? &&
      !(exists j | 0 <= j <= |c.douyin.value.baseUploadUrl| :: OccursAt(c.douyin.value.baseUploadUrl, Douyin.Placeholder, j))
    case MissingUploader => c.uploader.None?
    case BadBatchSize => c.uploader.Some? && NotPositive(c.uploader.value.batchSize)
    case MissingSelectors => c.uploader.Some? && c.uploader.value.selectors.None?
    case MissingScheduler => c.scheduler.None?
    case BadFetchInterval => c.scheduler.Some? && NotPositive(c.scheduler.value.fetchIntervalMinutes)
    case MissingPlaywright => c.playwright.None?
  }

  /** Errors listed once each, in check order. */
  predicate InCheckOrder(errors: seq<ConfigError>)
  {
    forall i, j :: 0 <= i < j < |errors| ==> Rank(errors[i]) < Rank(errors[j])
  }

  datatype Outcome<+E> = Pass | Fail(error: E)

  /** `validate` runs 22 checks. */
  const NumChecks: nat := 22

  /** The `k`-th check `validate` runs. */
  function CheckAt(k: nat): ConfigError
    requires k < NumChecks
  {
    match k
    case 0 => MissingFeishu
    case 1 => EmptyAppId
    case 2 => EmptyAppSecret
    case 3 => EmptyAppToken
    case 4 => EmptyTableId
    case 5 => EmptyBaseUrl
    case 6 => EmptyFields
    case 7 => EmptyStatusField
    case 8 => EmptyAccountField
    case 9 => EmptyDramaField
    case 10 => EmptyDateField
    case 11 => MissingLocal
    case 12 => EmptyRootDir
    case 13 => MissingDouyin
    case 14 => EmptyUploadUrl
    case 15 => MissingPlaceholder
    case 16 => MissingUploader
    case 17 => BadBatchSize
    case 18 => MissingSelectors
    case 19 => MissingScheduler
    case 20 => BadFetchInterval
    case _ => MissingPlaywright
  }

  /** A check's rank is its position in the order. */
  lemma RankIdentifies(e: ConfigError)
    ensures Rank(e) < NumChecks && CheckAt(Rank(e)) == e
  {
  }

  lemma RankOfCheck(k: nat)
    requires k < NumChecks
    ensures Rank(CheckAt(k)) == k
  {
  }

  /** The errors reported by the first `n` checks: those whose condition holds, in order. */
  function Expected(c: Config, n: nat): seq<ConfigError>
    requires n <= NumChecks
  {
    if n == 0 then []
    else Expected(c, n - 1) + (if Violates(c, CheckAt(n - 1)) then [CheckAt(n - 1)] else [])
  }

  /** The first `n` checks report errors of rank below `n`, in check order. */
  lemma {:induction false} ExpectedOrdered(c: Config, n: nat)
    requires n <= NumChecks
    ensures InCheckOrder(Expected(c, n))
    ensures forall i :: 0 <= i < |Expected(c, n)| ==> Rank(Expected(c, n)[i]) < n
  {
    if n > 0 {
      ExpectedOrdered(c, n - 1);
      RankOfCheck(n - 1);
    }
  }

  /** The first `n` checks report exactly the errors of rank below `n` whose condition holds. */
  lemma {:induction false} ExpectedExactly(c: Config, n: nat)
    requires n <= NumChecks
    ensures forall e :: e in Expected(c, n) <==> Rank(e) < n && Violates(c, e)
  {
    if n > 0 {
      var prev, k := Expected(c, n - 1), CheckAt(n - 1);
      assert Expected(c, n) == prev + (if Violates(c, k) then [k] else []);
      ExpectedExactly(c, n - 1);
      RankOfCheck(n - 1);
      forall e ensures e in Expected(c, n) <==> Rank(e) < n && Violates(c, e) {
        RankIdentifies(e);
        if e != k {
          assert e in Expected(c, n) <==> e in prev;
        }
      }
    }
  }

  /** All the checks report exactly the violated conditions, in check order. */
  lemma ExpectedIsViolations(c: Config)
    ensures InCheckOrder(Expected(c, NumChecks))
    ensures forall e :: e in Expected(c, NumChecks) <==> Violates(c, e)
  {
    ExpectedOrdered(c, NumChecks);
    ExpectedExactly(c, NumChecks);
    forall e ensures e in Expected(c, NumChecks) <==> Violates(c, e) {
      RankIdentifies(e);
    }
  }

  /** A check that is not reached (its block is missing) reports nothing. */
  lemma Skip(c: Config, errors: seq<ConfigError>, k: nat)
    requires k < NumChecks && errors == Expected(c, k)
    requires !Violates(c, CheckAt(k))
    ensures errors == Expected(c, k + 1)
  {
  }

  /** Runs check `k`: pushes its error when `failed`, the check's condition, holds. */
  method Push(c: Config, errors: seq<ConfigError>, k: nat, failed: bool) returns (r: seq<ConfigError>)
    requires k < NumChecks && errors == Expected(c, k)
    requires failed == Violates(c, CheckAt(k))
    ensures r == Expected(c, k + 1)
  {
    r := errors;
    if failed {
      r := r + [CheckAt(k)];
    }
  }

  /** The `feishu` block and its five credentials. */
  method FeishuErrors(c: Config) returns (errors: seq<ConfigError>)
    ensures errors == Expected(c, 6)
  {
    errors := Push(c, [], 0, c.feishu.None?);
    if c.feishu.None? {
      Skip(c, errors, 1); Skip(c, errors, 2); Skip(c, errors, 3);
      Skip(c, errors, 4); Skip(c, errors, 5);
    } else {
      var f := c.feishu.value;
      errors := Push(c, errors, 1, f.app_id == "");
      errors := Push(c, errors, 2, f.app_secret == "");
      errors := Push(c, errors, 3, f.app_token == "");
      errors := Push(c, errors, 4, f.table_id == "");
      errors := Push(c, errors, 5, f.base_url == "");
    }
  }

  /** The `feishu.fields` block and its four column names. */
  method FieldErrors(c: Config, errors0: seq<ConfigError>) returns (errors: seq<ConfigError>)
    requires errors0 == Expected(c, 6)
    ensures errors == Expected(c, 11)
  {
    errors := errors0;
    if c.feishu.None? {
      Skip(c, errors, 6); Skip(c, errors, 7); Skip(c, errors, 8);
      Skip(c, errors, 9); Skip(c, errors, 10);
    } else {
      var f := c.feishu.value;
      errors := Push(c, errors, 6, f.fields.None?);
      if f.fields.None? {
        Skip(c, errors, 7); Skip(c, errors, 8);
        Skip(c, errors, 9); Skip(c, errors, 10);
      } else {
        var names := f.fields.value;
        errors := Push(c, errors, 7, names.status == "");
        errors := Push(c, errors, 8, names.account == "");
        errors := Push(c, errors, 9, names.drama == "");
        errors := Push(c, errors, 10, names.date == "");
      }
    }
  }

  /** The `local` block. */
  method LocalErrors(c: Config, errors0: seq<ConfigError>) returns (errors: seq<ConfigError>)
    requires errors0 == Expected(c, 11)
    ensures errors == Expected(c, 13)
  {
    errors := Push(c, errors0, 11, c.local.None?);
    if c.local.None? {
      Skip(c, errors, 12);
    } else {
      errors := Push(c, errors, 12, c.local.value.rootDir == "");
    }
  }

  /** The `douyin` block: an empty template fails both of its checks. */
  method DouyinErrors(c: Config, errors0: seq<ConfigError>) returns (errors: seq<ConfigError>)
    requires errors0 == Expected(c, 13)
    ensures errors == Expected(c, 16)
  {
    errors := Push(c, errors0, 13, c.douyin.None?);
    if c.douyin.None? {
      Skip(c, errors, 14); Skip(c, errors, 15);
    } else {
      var url := c.douyin.value.baseUploadUrl;
      errors := Push(c, errors, 14, url == "");
      ContainsIffOccurs(url, Douyin.Placeholder);
      errors := Push(c, errors, 15, !Contains(url, Douyin.Placeholder));
    }
  }

  /** The `uploader` block. */
  method UploaderErrors(c: Config, errors0: seq<ConfigError>) returns (errors: seq<ConfigError>)
    requires errors0 == Expected(c, 16)
    ensures errors == Expected(c, 19)
  {
    errors := Push(c, errors0, 16, c.uploader.None?);
    if c.uploader.None? {
      Skip(c, errors, 17); Skip(c, errors, 18);
    } else {
      errors := Push(c, errors, 17, NotPositive(c.uploader.value.batchSize));
      errors := Push(c, errors, 18, c.uploader.value.selectors.None?);
    }
  }

  /** The `scheduler` block. */
  method SchedulerErrors(c: Config, errors0: seq<ConfigError>) returns (errors: seq<ConfigError>)
    requires errors0 == Expected(c, 19)
    ensures errors == Expected(c, 21)
  {
    errors := Push(c, errors0, 19, c.scheduler.None?);
    if c.scheduler.None? {
      Skip(c, errors, 20);
    } else {
      errors := Push(c, errors, 20, NotPositive(c.scheduler.value.fetchIntervalMinutes));
    }
  }

  /** The `playwright` block, the last check. */
  method PlaywrightErrors(c: Config, errors0: seq<ConfigError>) returns (errors: seq<ConfigError>)
    requires errors0 == Expected(c, 21)
    ensures errors == Expected(c, NumChecks)
  {
    errors := Push(c, errors0, 21, c.playwright.None?);
  }

  /**
   * `validate`: accumulates one error per failed check, in check order, and
   * fails exactly when the list is non-empty. The list holds exactly the
   * errors whose condition the configuration meets.
   */
  method Validate(c: Config) returns (r: Outcome<seq<ConfigError>>)
    ensures r.Pass? <==> forall e :: !Violates(c, e)
    ensures r.Fail? ==> r.error != [] && InCheckOrder(r.error)
    ensures r.Fail? ==> forall e :: e in r.error <==> Violates(c, e)
    ensures r.Fail? ==> r.error == Expected(c, NumChecks)
  {
    var errors := FeishuErrors(c);
    errors := FieldErrors(c, errors);
    errors := LocalErrors(c, errors);
    errors := DouyinErrors(c, errors);
    errors := UploaderErrors(c, errors);
    errors := SchedulerErrors(c, errors);
    errors := PlaywrightErrors(c, errors);
    ExpectedIsViolations(c);
    if errors != [] {
      assert Violates(c, errors[0]);
      return Fail(errors);
    }
    return Pass;
  }

  /** A configuration that passes validation, with the facts the other components rely on. */
  predicate IsValid(c: Config)
  {
    forall e :: !Violates(c, e)
  }

  /** An empty upload URL template reports both the empty error and the placeholder error. */
  lemma EmptyUrlReportsTwoErrors(c: Config)
    requires c.douyin.Some? && c.douyin.value.baseUploadUrl == ""
    ensures Violates(c, EmptyUploadUrl) && Violates(c, MissingPlaceholder)
  {
  }

  /** A missing `local` block is one error; `rootDir` is then not checked. */
  lemma MissingLocalIsOneError(c: Config)
    requires c.local.None?
    ensures Violates(c, MissingLocal) && !Violates(c, EmptyRootDir)
  {
  }

  /** What load reports when it cannot produce a configuration. */
  datatype LoadError = FileMissingOrUnparsable | Invalid(errors: seq<ConfigError>) | NotLoaded

  /** The configuration holder: `config` stays unset until a load succeeds. */
  class ConfigManager {
    var config: Option<Config>

    constructor ()
      ensures config == None
    {
      config := None;
    }

    /**
     * `load`, with reading and parsing the file abstracted to `parsed`
     * (`None` when the file is missing or is not JSON). The configuration is
     * stored only when it validates.
     */
    method Load(parsed: Option<Config>) returns (r: Outcome<LoadError>)
      modifies this
      ensures parsed.None? ==> r == Fail(FileMissingOrUnparsable) && config == old(config)
      ensures parsed.Some? && IsValid(parsed.value) ==> r.Pass? && config == parsed
      ensures parsed.Some? && !IsValid(parsed.value) ==>
                r == Fail(Invalid(Expected(parsed.value, NumChecks))) && config == old(config)
    {
      if parsed.None? {
        return Fail(FileMissingOrUnparsable);
      }
      var v := Validate(parsed.value);
      if v.Fail? {
        return Fail(Invalid(v.error));
      }
      config := parsed;
      return Pass;
    }

    /** `getConfig`: fails until a load has succeeded, then returns the loaded configuration. */
    function GetConfig(): (r: Result<Config, LoadError>)
      reads this
      ensures r.Err? <==> config.None?
      ensures r.Ok? ==> config == Some(r.value)
    {
      if config.None? then Err(NotLoaded) else Ok(config.value)
    }
  }
}
