/**
 * `QWWDIOService`: the options it is built with and the `results` field that
 * `onComplete` appends to. The field lives as long as the service object, so a
 * second `onComplete` appends to what the first one collected.
 */
module Service {
  import opened Wrappers
  import opened JsValues
  import opened SuiteId
  import opened Options
  import opened Collection
  import opened Publisher
  import opened Decimal

  class QWWDIOService {
    var options: UserOptions
    var results: seq<JsValue>
    const dir: string

    /** A service object exists only for options that `validateOptions` accepted. */
    ghost predicate Valid()
      reads this
    {
      ValidateOptions(options).Accepted?
    }

    constructor (serviceOptions: UserOptions)
      ensures options == serviceOptions && results == [] && dir == "./QualityWatcher"
    {
      options := serviceOptions;
      results := [];
      dir := "./QualityWatcher";
    }

    /**
     * `new QWWDIOService(serviceOptions)`: the constructor stores the options
     * and then throws the validation error, so the caller gets the service
     * only when the options are accepted.
     */
    static method Create(serviceOptions: UserOptions) returns (r: Result<QWWDIOService, Field>)
      ensures r.Success? <==> ValidateOptions(serviceOptions).Accepted?
      ensures r.Failure? ==> ValidateOptions(serviceOptions) == Missing(r.error)
      ensures r.Success? ==> fresh(r.value) && r.value.Valid()
      ensures r.Success? ==> r.value.options == serviceOptions && r.value.results == []
    {
      var service := new QWWDIOService(serviceOptions);
      var validation := ValidateOptions(serviceOptions);
      if validation.Missing? {
        return Failure(validation.field);
      }
      return Success(service);
    }

    /**
     * One pass of the file loop of `onComplete`, over `files[i]`: its suite id
     * is pushed onto `suites` unless it is already there, and each record of
     * its JSON array is pushed onto `results`.
     */
    method CollectFile(files: seq<FileEntry>, i: nat, suites: seq<nat>) returns (suites': seq<nat>)
      requires i < |files| && suites == SuiteIdsUpTo(files, i)
      modifies this`results
      ensures suites' == SuiteIdsUpTo(files, i + 1)
      ensures results == old(results) + FileRecords(files[i])
    {
      SuiteIdsStep(files, i);
      var file := files[i];
      suites' := suites;
      var id := GetSuiteId(file.name);
      if id.Some? {
        if id.value !in suites {
          suites' := suites + [id.value];
        }
        match file.contents {
          case Some(Arr(items)) =>
            FileRecordsOfArray(file, items);
            PushAll(items);
          case _ =>
        }
      }
    }

    /** The file loop of `onComplete`, over the directory listing in order. */
    method CollectFiles(files: seq<FileEntry>) returns (suites: seq<nat>)
      modifies this`results
      ensures suites == SuiteIds(files)
      ensures results == old(results) + CollectedRecords(files)
    {
      suites := [];
      var i := 0;
      while i < |files|
        invariant 0 <= i <= |files|
        invariant suites == SuiteIdsUpTo(files, i)
        invariant results == old(results) + CollectedUpTo(files, i)
      {
        CollectedStep(files, i, old(results));
        suites := CollectFile(files, i, suites);
        i := i + 1;
      }
    }

    /** `data.forEach(test => this.results.push(test))`. */
    method PushAll(items: seq<JsValue>)
      modifies this`results
      ensures results == old(results) + items
    {
      var j := 0;
      while j < |items|
        invariant 0 <= j <= |items|
        invariant results == old(results) + items[..j]
      {
        results := results + [items[j]];
        assert items[..j + 1] == items[..j] + [items[j]];
        j := j + 1;
      }
      assert items[..j] == items;
    }

    /**
     * `onComplete`, with the directory listing and file contents, the success
     * of writing results.json and the server's response given as inputs.
     */
    method OnComplete(files: seq<FileEntry>, resultsFileWritten: bool, response: Response)
      returns (d: Decision)
      requires Valid()
      modifies this`results
      ensures Valid()
      ensures results == old(results) + CollectedRecords(files)
      ensures d == Publish(options, SuiteIds(files), results, resultsFileWritten, response)
    {
      var suites := CollectFiles(files);
      d := Publish(options, suites, results, resultsFileWritten, response);
    }
  }

  /**
   * A run with one well-formed result file for suite 12 and one unreadable file
   * from the same suite, answered with status 500.
   */
  method ApiKeyRejectedRun(options: UserOptions, r1: JsValue, r2: JsValue)
    requires ValidateOptions(options).Accepted?
  {
    var created := QWWDIOService.Create(options);
    var service := created.value;
    SuiteIdOfName("suite-", "", 12, ".json");
    SuiteIdOfName("suite-", "", 12, "-retry.json");
    var good := FileEntry("suite-" + "" + FromNat(12) + ".json", Some(Arr([r1, r2])));
    var bad := FileEntry("suite-" + "" + FromNat(12) + "-retry.json", None);
    SameSuiteWithUnreadableFile(good, bad, 12, [r1, r2]);
    var d := service.OnComplete([good, bad], true, Reply(500, Some(Null)));
    assert service.results == [r1, r2];
    assert d.request.Some? && d.request.value.body.suites == [12];
    assert d.outcome == ApiKeyError && d.folderRemoved;
  }
}
