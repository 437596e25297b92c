/**
 * Blob storage: the completeness check on the three storage settings, the names
 * and URLs derived from them, and the container as a map from blob name to bytes.
 */
module Storage {
  import opened Wrappers
  import opened Scratch

  /** The three settings as read from the environment; None when unset. */
  datatype Config = Config(account: Option<string>, key: Option<string>, container: Option<string>)

  /** The settings once all three are known to be present. */
  datatype Settings = Settings(account: string, key: string, container: string)

  /** Truthiness of an optional string: present and not the empty string. */
  predicate IsSet(v: Option<string>) {
    v.Some? && v.value != ""
  }

  /** `all([...])` over optional strings. */
  function AllSet(values: seq<Option<string>>): (r: bool)
    ensures r <==> forall i :: 0 <= i < |values| ==> IsSet(values[i])
  {
    values == [] || (IsSet(values[0]) && AllSet(values[1..]))
  }

  /**
   * The settings when account, key and container are all set, None otherwise:
   * an unset value and an empty string count alike as missing.
   */
  function CompleteSettings(cfg: Config): (r: Option<Settings>)
    ensures r.Some? <==> IsSet(cfg.account) && IsSet(cfg.key) && IsSet(cfg.container)
    ensures r.Some? ==>
      r.value == Settings(cfg.account.value, cfg.key.value, cfg.container.value)
  {
    var values := [cfg.account, cfg.key, cfg.container];
    if AllSet(values) then
      assert IsSet(values[0]) && IsSet(values[1]) && IsSet(values[2]);
      Some(Settings(cfg.account.value, cfg.key.value, cfg.container.value))
    else
      None
  }

  /** The endpoint `BlobServiceClient` is built for: the account's blob service. */
  function AccountUrl(account: string): string {
    "https://" + account + ".blob.core.windows.net"
  }

  /** The name of the renamed file and of the blob it is uploaded as. */
  function BlobName(episodeId: string): (r: string)
    ensures IsMp3(r)
    ensures |r| == |episodeId| + |Mp3Suffix| && r[..|episodeId|] == episodeId
  {
    episodeId + Mp3Suffix
  }

  /** Different episodes never share a blob name, so one never overwrites another. */
  lemma BlobNameInjective(a: string, b: string)
    ensures BlobName(a) == BlobName(b) <==> a == b
  {
    if BlobName(a) == BlobName(b) {
      assert a == BlobName(a)[..|a|];
    }
  }

  /** The public URL of a blob in a container of an account. */
  function BlobUrl(account: string, container: string, blobName: string): string {
    "https://" + account + ".blob.core.windows.net/" + container + "/" + blobName
  }

  /** What the store does with one upload request. */
  datatype UploadOutcome = UploadOk | UploadFailed(message: string)

  /** The remote blob container: its blobs by name. */
  class Container {
    var blobs: map<string, Bytes>

    constructor (initial: map<string, Bytes>)
      ensures blobs == initial
    {
      blobs := initial;
    }

    /**
     * `upload_blob(name, data, overwrite=True)`: on success the blob named `name`
     * holds `data`, whatever was there before; on failure nothing changes and the
     * error's text is returned.
     */
    method UploadBlob(name: string, data: Bytes, outcome: UploadOutcome) returns (error: Option<string>)
      modifies this
      ensures error == if outcome.UploadOk? then None else Some(outcome.message)
      ensures blobs == if outcome.UploadOk? then old(blobs)[name := data] else old(blobs)
    {
      match outcome
      case UploadOk =>
        blobs := blobs[name := data];
        error := None;
      case UploadFailed(message) =>
        error := Some(message);
    }
  }
}
