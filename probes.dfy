/**
 * The two private-mode probes, with each browser callback replaced by the
 * outcome it reports, and the combination of their verdicts.
 */
module Probes {

  import opened Wrappers
  import opened Js

  /** How the attempt to open the IndexedDB database "test" ends. */
  datatype IdbOutcome =
    | OpenThrows    // `indexedDB.open` throws synchronously
    | ErrorEvent    // the request's `onerror` fires
    | SuccessEvent  // the request's `onsuccess` fires (the handle is then closed)

  /** Verdict of the IndexedDB probe: `true` means private mode. */
  function IdbVerdict(o: IdbOutcome): (r: bool)
    ensures r <==> o != SuccessEvent
  {
    match o
    case OpenThrows => true
    case ErrorEvent => true
    case SuccessEvent => false
  }

  /** The two spellings of the sandboxed file system API. */
  datatype FsApi = RequestFileSystem | WebkitRequestFileSystem

  /** Which of the two globals the host defines. */
  datatype FileSystemApis = FileSystemApis(standard: bool, webkit: bool)

  /** Which callback the file system request invokes. */
  datatype FsCallback = SuccessCallback | ErrorCallback

  /**
   * `window.RequestFileSystem || window.webkitRequestFileSystem`: the
   * unprefixed API when it exists, otherwise the prefixed one, otherwise none.
   */
  function ChosenFsApi(apis: FileSystemApis): (r: Option<FsApi>)
    ensures r.None? <==> !apis.standard && !apis.webkit
    ensures r == Some(RequestFileSystem) <==> apis.standard
  {
    if apis.standard then Some(RequestFileSystem)
    else if apis.webkit then Some(WebkitRequestFileSystem)
    else None
  }

  /**
   * Verdict of the file system probe: `null` when no API exists (the reply is
   * then never requested), otherwise `true` exactly when the failure callback
   * runs.
   */
  function FsVerdict(apis: FileSystemApis, reply: FsCallback): (r: JsValue)
    ensures r == Null <==> !apis.standard && !apis.webkit
    ensures r == Bool(true) <==> (apis.standard || apis.webkit) && reply == ErrorCallback
    ensures r == Bool(false) <==> (apis.standard || apis.webkit) && reply == SuccessCallback
  {
    match ChosenFsApi(apis)
    case None => Null
    case Some(_) =>
      match reply
      case SuccessCallback => Bool(false)
      case ErrorCallback => Bool(true)
  }

  /** `isPrivateIDB || isPrivateFS`, a JavaScript value tested for truthiness. */
  function Combined(isPrivateIdb: bool, isPrivateFs: JsValue): (r: JsValue)
    ensures Truthy(r) <==> isPrivateIdb || Truthy(isPrivateFs)
    ensures isPrivateIdb ==> r == Bool(true)
    ensures !isPrivateIdb ==> r == isPrivateFs
  {
    Or(Bool(isPrivateIdb), isPrivateFs)
  }

  /**
   * Truth table of the combined verdict: the page counts as private exactly
   * when the IndexedDB probe did not succeed or the file system probe reached
   * its failure callback.
   */
  lemma CombinedTruthTable(idb: IdbOutcome, apis: FileSystemApis, reply: FsCallback)
    ensures Truthy(Combined(IdbVerdict(idb), FsVerdict(apis, reply)))
        <==> idb != SuccessEvent || ((apis.standard || apis.webkit) && reply == ErrorCallback)
  {
  }

  /**
   * A successful IndexedDB probe with no file system API gives `false || null`,
   * which is `null` itself: falsy, so it never blocks.
   */
  lemma NullFsVerdictDoesNotBlock(apis: FileSystemApis, reply: FsCallback)
    requires !apis.standard && !apis.webkit
    ensures Combined(IdbVerdict(SuccessEvent), FsVerdict(apis, reply)) == Null
    ensures !Truthy(Combined(IdbVerdict(SuccessEvent), FsVerdict(apis, reply)))
  {
  }
}
