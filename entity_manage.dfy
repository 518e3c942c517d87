/**
 * The admin list controller: the fetched records, the loading flag and the
 * refresh counter, the fetch guard, the response-shape rule, and the
 * spreadsheet export guard and file name.
 */
module EntityManage {
  import opened Wrappers
  import opened FormModal

  /** A JSON scalar, enough to tell `Status === true` apart from look-alikes such as "true" or 1. */
  datatype Scalar = Bool(b: bool) | Text(s: string) | Number(n: int) | Missing

  /** What `config.api.getAll` settles with. */
  datatype Response =
    | Envelope(status: Scalar, data: Option<seq<Record>>, message: string)
      // an object; `data` is None when its `Data` is not an array, `message` is "" when absent
    | BareArray(records: seq<Record>)
    | OtherShape      // null, a string, a number, ...: nothing carrying a `Message`
    | Rejected(error: string)  // the call threw; `error` is its message

  const InvalidFormat := "Invalid response format"

  /**
   * The records a response yields (with a rejected call as the
   * error it throws): an envelope whose `Status` is exactly `true` and whose
   * `Data` is an array, or a bare array; anything else is an error.
   */
  function Normalize(res: Response): (r: Result<seq<Record>, string>)
    ensures r.Success? <==>
      (res.Envelope? && res.status == Bool(true) && res.data.Some?) || res.BareArray?
    ensures res.Envelope? && res.status == Bool(true) && res.data.Some? ==> r == Success(res.data.value)
    ensures res.BareArray? ==> r == Success(res.records)
    ensures res.Envelope? && r.Failure? ==> r.error == (if res.message != "" then res.message else InvalidFormat)
    ensures res.OtherShape? ==> r == Failure(InvalidFormat)
  {
    match res
    case Envelope(status, data, message) =>
      if status == Bool(true) && data.Some? then Success(data.value)
      else Failure(if message != "" then message else InvalidFormat)
    case BareArray(records) => Success(records)
    case OtherShape => Failure(InvalidFormat)
    case Rejected(error) => Failure(error)
  }

  /** `s.split(c)[0]`: the text before the first `c`, or all of `s` when there is none. */
  function BeforeFirst(s: string, c: char): (r: string)
    ensures |r| <= |s| && r == s[..|r|]
    ensures c !in r
    ensures |r| < |s| ==> s[|r|] == c
  {
    if s == [] || s[0] == c then [] else [s[0]] + BeforeFirst(s[1..], c)
  }

  /** The export file name, from the entity name and the current ISO timestamp. */
  function ExportFileName(entity: string, isoNow: string): string
  {
    entity + "_Data_" + BeforeFirst(isoNow, 'T') + ".xlsx"
  }

  /** For an ISO timestamp `<date>T<time>` the file name carries exactly the date part. */
  lemma ExportFileNameOfIso(entity: string, date: string, time: string)
    requires 'T' !in date
    ensures ExportFileName(entity, date + "T" + time) == entity + "_Data_" + date + ".xlsx"
  {
    var iso := date + "T" + time;
    var r := BeforeFirst(iso, 'T');
    assert forall i :: 0 <= i < |date| ==> iso[i] == date[i] && iso[i] != 'T';
    assert iso[|date|] == 'T';
    assert |r| <= |date| by {
      assert forall i :: 0 <= i < |r| ==> r[i] == iso[i] && r[i] != 'T';
    }
    assert r == date;
  }

  /** What the export hands to the spreadsheet writer: the records as they are, the sheet and the file name. */
  datatype Export = Export(rows: seq<Record>, sheetName: string, fileName: string)

  const NoDataError := "No data available to download"

  class EntityManager {
    /** `config.entity`. */
    const entity: string
    var items: seq<Record>
    var loading: bool
    /** ISO time of the last successful fetch. */
    var lastFetch: Option<string>
    /** `recordsKey.current`, bumped after each refresh so the list re-mounts. */
    var recordsKey: nat

    constructor (entity: string)
      ensures this.entity == entity
      ensures items == [] && !loading && lastFetch == None && recordsKey == 0
    {
      this.entity := entity;
      items := [];
      loading := false;
      lastFetch := None;
      recordsKey := 0;
    }

    /**
     * The part of `fetchItems` before the request is awaited: a non-forced
     * fetch while one is loading does nothing; otherwise loading starts.
     */
    method BeginFetch(force: bool) returns (started: bool)
      modifies this`loading
      ensures started <==> force || !old(loading)
      ensures loading == (old(loading) || started)
    {
      if !force && loading {
        return false;
      }
      loading := true;
      started := true;
    }

    /**
     * The part of `fetchItems` after the request settles: the records from a
     * well-shaped response, or an error and an empty list; loading ends either way.
     */
    method CompleteFetch(res: Response, isoNow: string) returns (error: Option<string>)
      modifies this`items, this`loading, this`lastFetch
      ensures !loading
      ensures Normalize(res).Success? ==>
        items == Normalize(res).value && lastFetch == Some(isoNow) && error == None
      ensures Normalize(res).Failure? ==>
        items == [] && lastFetch == old(lastFetch) && error == Some(Normalize(res).error)
    {
      match Normalize(res) {
        case Success(data) =>
          items := data;
          lastFetch := Some(isoNow);
          error := None;
        case Failure(message) =>
          error := Some(message);
          items := [];
      }
      loading := false;
    }

    /** `fetchItems(filters, force)` run to completion, with the settled response as a parameter. */
    method FetchItems(force: bool, res: Response, isoNow: string) returns (started: bool, error: Option<string>)
      modifies this`items, this`loading, this`lastFetch
      ensures started <==> force || !old(loading)
      ensures !started ==> items == old(items) && loading == old(loading) && lastFetch == old(lastFetch) && error == None
      ensures started ==> !loading
      ensures started && Normalize(res).Success? ==>
        items == Normalize(res).value && lastFetch == Some(isoNow) && error == None
      ensures started && Normalize(res).Failure? ==>
        items == [] && lastFetch == old(lastFetch) && error == Some(Normalize(res).error)
    {
      started := BeginFetch(force);
      error := None;
      if started {
        error := CompleteFetch(res, isoNow);
      }
    }

    /** `handleRefresh`: a forced fetch, then the list key moves on by one. */
    method HandleRefresh(res: Response, isoNow: string) returns (error: Option<string>)
      modifies this`items, this`loading, this`lastFetch, this`recordsKey
      ensures recordsKey == old(recordsKey) + 1
      ensures !loading
      ensures items == (if Normalize(res).Success? then Normalize(res).value else [])
      ensures lastFetch == (if Normalize(res).Success? then Some(isoNow) else old(lastFetch))
      ensures error == (if Normalize(res).Success? then None else Some(Normalize(res).error))
    {
      var started;
      started, error := FetchItems(true, res, isoNow);
      recordsKey := recordsKey + 1;
    }

    /**
     * `handleDownloadExcel`: with no records it reports an error and writes
     * nothing; otherwise it exports the records unchanged, in a sheet named
     * after the entity, under the dated file name.
     */
    method HandleDownloadExcel(isoNow: string) returns (r: Result<Export, string>)
      ensures r.Failure? <==> items == []
      ensures r.Failure? ==> r.error == NoDataError
      ensures r.Success? ==>
        && r.value.rows == items
        && r.value.sheetName == entity
        && r.value.fileName == ExportFileName(entity, isoNow)
    {
      if |items| == 0 {
        return Failure(NoDataError);
      }
      r := Success(Export(items, entity, ExportFileName(entity, isoNow)));
    }
  }
}
