/**
 * The `/convert` handler: validate the URL, check the storage settings, run the
 * downloader into a scratch directory, pick the first `*.mp3`, rename it after
 * the episode id, upload it and answer with the blob's URL. The first failing
 * step decides the answer.
 */
module Conversion {
  import opened Wrappers
  import opened EpisodeUrl
  import opened Scratch
  import opened Storage

  /** An HTTP error answer: status code and `detail` text. */
  datatype HttpError = HttpError(status: int, detail: string)

  /** Whether building the service and container clients raised, and with what text. */
  datatype ClientOutcome = ClientReady | ClientFailed(message: string)

  /**
   * What the downloader run did: exited 0 leaving `files` in the scratch directory,
   * enumerated in `listing` order, or exited non-zero with this standard-error text
   * (already decoded; empty when it wrote none).
   */
  datatype DownloadOutcome =
    | Downloaded(files: Directory, listing: seq<string>)
    | DownloadFailed(stderr: string)

  /** The container client: the service endpoint, its credential and the container it addresses. */
  datatype ContainerHandle = ContainerHandle(accountUrl: string, credential: string, container: string)

  /** A successful conversion: the blob written, its content and the URL answered. */
  datatype Publication = Publication(blobName: string, data: Bytes, url: string)

  /** The listing of a finished download enumerates the files it left. */
  predicate WellFormed(download: DownloadOutcome) {
    download.Downloaded? ==> Enumerates(download.listing, download.files)
  }

  const InvalidUrl := HttpError(400, "Invalid Spotify episode URL")
  const MissingConfig := HttpError(500, "Missing Azure Storage configuration")
  const Mp3Missing := HttpError(500, "MP3 file not found after download")

  function DownloadError(stderr: string): HttpError {
    HttpError(500, "Download failed: " + stderr)
  }

  function UploadError(message: string): HttpError {
    HttpError(500, "Upload failed: " + message)
  }

  /**
   * Obtaining the container client: the settings check comes first and its error
   * passes through unchanged; any other failure becomes a 500 with the error's text.
   * The client addresses the configured container at the account's blob endpoint.
   */
  function ContainerClient(cfg: Config, client: ClientOutcome): (r: Result<ContainerHandle, HttpError>)
    ensures r.Success? <==> CompleteSettings(cfg).Some? && client.ClientReady?
    ensures r.Success? ==>
      r.value == ContainerHandle(AccountUrl(cfg.account.value), cfg.key.value, cfg.container.value)
    ensures r.Failure? && CompleteSettings(cfg).None? ==> r.error == MissingConfig
    ensures r.Failure? && CompleteSettings(cfg).Some? ==> r.error == HttpError(500, client.message)
  {
    match CompleteSettings(cfg)
    case None => Failure(MissingConfig)
    case Some(settings) =>
      match client
      case ClientFailed(message) => Failure(HttpError(500, message))
      case ClientReady =>
        Success(ContainerHandle(AccountUrl(settings.account), settings.key, settings.container))
  }

  /**
   * The answer of one `/convert` request, with every external effect given as an
   * input. A rejected URL is a 400, every later failure a 500; a success publishes
   * the first `*.mp3` under `<episode id>.mp3` and answers with its URL.
   */
  function Convert(url: string, cfg: Config, client: ClientOutcome,
                   download: DownloadOutcome, upload: UploadOutcome): (r: Result<Publication, HttpError>)
    requires WellFormed(download)
    ensures r.Failure? ==> r.error.status == if ParseEpisodeId(url).None? then 400 else 500
    ensures r.Success? ==>
      && ParseEpisodeId(url).Some?
      && CompleteSettings(cfg).Some?
      && client.ClientReady?
      && download.Downloaded?
      && upload.UploadOk?
      && r.value.blobName == BlobName(ParseEpisodeId(url).value)
      && r.value.url == BlobUrl(cfg.account.value, cfg.container.value, r.value.blobName)
      && exists i :: 0 <= i < |download.listing| && IsMp3(download.listing[i])
           && r.value.data == download.files[download.listing[i]]
  {
    match ParseEpisodeId(url)
    case None => Failure(InvalidUrl)
    case Some(episodeId) =>
      match ContainerClient(cfg, client)
      case Failure(e) => Failure(e)
      case Success(_) =>
        match download
        case DownloadFailed(stderr) => Failure(DownloadError(stderr))
        case Downloaded(files, listing) =>
          var mp3Files := Mp3Files(listing);
          if mp3Files == [] then Failure(Mp3Missing)
          else
            var downloaded := mp3Files[0];
            assert downloaded in listing;
            var blobName := BlobName(episodeId);
            var dir := Renamed(files, downloaded, blobName);
            match upload
            case UploadFailed(message) => Failure(UploadError(message))
            case UploadOk =>
              // the answer re-reads the account and container settings
              Success(Publication(blobName, dir[blobName], BlobUrl(cfg.account.value, cfg.container.value, blobName)))
  }

  /**
   * The scratch directory as the handler leaves it: never written when the request
   * stops before the download, not tracked after a failed download, as the
   * downloader left it when it holds no `*.mp3`, and otherwise with the first
   * `*.mp3` renamed to `<episode id>.mp3`.
   */
  function ScratchAfter(url: string, cfg: Config, client: ClientOutcome,
                        download: DownloadOutcome): (r: Directory)
    requires WellFormed(download)
    ensures ParseEpisodeId(url).None? || ContainerClient(cfg, client).Failure? ==> r == map[]
  {
    match ParseEpisodeId(url)
    case None => map[]
    case Some(episodeId) =>
      if ContainerClient(cfg, client).Failure? then map[]
      else
        match download
        case DownloadFailed(_) => map[]
        case Downloaded(files, listing) =>
          var mp3Files := Mp3Files(listing);
          if mp3Files == [] then files
          else
            assert mp3Files[0] in listing;
            Renamed(files, mp3Files[0], BlobName(episodeId))
  }

  /** The response body on success: the blob URL, or the error answer. */
  function Answer(r: Result<Publication, HttpError>): Result<string, HttpError> {
    match r
    case Success(p) => Success(p.url)
    case Failure(e) => Failure(e)
  }

  /**
   * The handler run step by step against a scratch directory and the remote
   * container. It answers what Convert says, leaves the scratch directory as
   * ScratchAfter says, and writes the container only when the conversion succeeds.
   */
  method HandleConvert(url: string, cfg: Config, client: ClientOutcome,
                       download: DownloadOutcome, upload: UploadOutcome, store: Container)
    returns (answer: Result<string, HttpError>, tmp: ScratchDir)
    requires WellFormed(download)
    modifies store
    ensures fresh(tmp)
    ensures answer == Answer(Convert(url, cfg, client, download, upload))
    ensures tmp.files == ScratchAfter(url, cfg, client, download)
    ensures store.blobs ==
      match Convert(url, cfg, client, download, upload)
      case Success(p) => old(store.blobs)[p.blobName := p.data]
      case Failure(_) => old(store.blobs)
  {
    // Stands for the temporary directory; on the two early returns below the
    // handler never creates one, and this object stays empty and unused.
    tmp := new ScratchDir();
    var parsed := ParseEpisodeId(url);
    if parsed.None? {
      return Failure(InvalidUrl), tmp;
    }
    var episodeId := parsed.value;

    var containerClient := ContainerClient(cfg, client);
    if containerClient.Failure? {
      return Failure(containerClient.error), tmp;
    }

    if download.DownloadFailed? {
      return Failure(DownloadError(download.stderr)), tmp;
    }
    tmp.Receive(download.files);

    var mp3Files := Mp3Files(download.listing);
    if mp3Files == [] {
      return Failure(Mp3Missing), tmp;
    }
    var downloaded := mp3Files[0];
    assert downloaded in download.listing;
    var blobName := BlobName(episodeId);
    tmp.Rename(downloaded, blobName);

    var error := store.UploadBlob(blobName, tmp.files[blobName], upload);
    if error.Some? {
      return Failure(UploadError(error.value)), tmp;
    }
    answer := Success(BlobUrl(cfg.account.value, cfg.container.value, blobName));
  }

  /** A URL the pattern refuses is a 400 whatever the settings and outcomes; nothing is downloaded. */
  lemma InvalidUrlFirst(url: string, cfg: Config, client: ClientOutcome,
                        download: DownloadOutcome, upload: UploadOutcome)
    requires WellFormed(download)
    requires !(EpisodePrefix <= url && |url| > |EpisodePrefix| && IsIdChar(url[|EpisodePrefix|]))
    ensures Convert(url, cfg, client, download, upload) == Failure(InvalidUrl)
    ensures ScratchAfter(url, cfg, client, download) == map[]
  {
  }

  /**
   * With a valid URL, a missing or empty account, key or container is a 500 about
   * the configuration, whatever the client, download and upload would do.
   */
  lemma MissingConfigSecond(url: string, cfg: Config, client: ClientOutcome,
                            download: DownloadOutcome, upload: UploadOutcome)
    requires WellFormed(download)
    requires ParseEpisodeId(url).Some?
    requires !IsSet(cfg.account) || !IsSet(cfg.key) || !IsSet(cfg.container)
    ensures Convert(url, cfg, client, download, upload) == Failure(MissingConfig)
    ensures ScratchAfter(url, cfg, client, download) == map[]
  {
  }

  /** A failed client construction is a 500 carrying the error's text; nothing is downloaded. */
  lemma ClientFailureThird(url: string, cfg: Config, message: string,
                           download: DownloadOutcome, upload: UploadOutcome)
    requires WellFormed(download)
    requires ParseEpisodeId(url).Some? && CompleteSettings(cfg).Some?
    ensures Convert(url, cfg, ClientFailed(message), download, upload) == Failure(HttpError(500, message))
    ensures ScratchAfter(url, cfg, ClientFailed(message), download) == map[]
  {
  }

  /** A failed download is a 500 "Download failed: <stderr>" whatever the upload would do. */
  lemma DownloadFailureFourth(url: string, cfg: Config, stderr: string, upload: UploadOutcome)
    requires ParseEpisodeId(url).Some? && CompleteSettings(cfg).Some?
    ensures Convert(url, cfg, ClientReady, DownloadFailed(stderr), upload)
         == Failure(HttpError(500, "Download failed: " + stderr))
  {
  }

  /**
   * A download that left no `*.mp3` is a 500 "MP3 file not found after download",
   * whatever the upload would do, and the scratch directory is left as downloaded.
   */
  lemma NoMp3Fifth(url: string, cfg: Config, files: Directory, listing: seq<string>,
                   upload: UploadOutcome)
    requires Enumerates(listing, files)
    requires ParseEpisodeId(url).Some? && CompleteSettings(cfg).Some?
    requires forall name :: name in files ==> !IsMp3(name)
    ensures Convert(url, cfg, ClientReady, Downloaded(files, listing), upload) == Failure(Mp3Missing)
    ensures ScratchAfter(url, cfg, ClientReady, Downloaded(files, listing)) == files
  {
    NoMp3Files(listing);
  }

  /**
   * When the download left `*.mp3` files, the earliest one in the listing is renamed
   * to `<episode id>.mp3` and nothing else in the scratch directory changes; a failed
   * upload is then a 500 "Upload failed: <error>", a successful one publishes that
   * file's bytes under the blob `<episode id>.mp3` and answers with its URL.
   */
  lemma PublishesFirstMp3(url: string, cfg: Config, files: Directory, listing: seq<string>,
                          i: nat, upload: UploadOutcome)
    requires Enumerates(listing, files)
    requires ParseEpisodeId(url).Some? && CompleteSettings(cfg).Some?
    requires i < |listing| && IsMp3(listing[i])
    requires forall j :: 0 <= j < i ==> !IsMp3(listing[j])
    ensures var episodeId := ParseEpisodeId(url).value;
      var blobName := episodeId + ".mp3";
      && blobName == BlobName(episodeId)
      && ScratchAfter(url, cfg, ClientReady, Downloaded(files, listing))
         == Renamed(files, listing[i], blobName)
      && Convert(url, cfg, ClientReady, Downloaded(files, listing), upload)
         == match upload
            case UploadFailed(message) => Failure(HttpError(500, "Upload failed: " + message))
            case UploadOk => Success(Publication(blobName, files[listing[i]],
                "https://" + cfg.account.value + ".blob.core.windows.net/"
                + cfg.container.value + "/" + blobName))
  {
    FirstMp3File(listing, i);
  }

  /**
   * On success the blob's content is the renamed file as the scratch directory holds
   * it, and the blob name is a plain `*.mp3` file name without any path separator.
   */
  lemma UploadedIsRenamedFile(url: string, cfg: Config, client: ClientOutcome,
                              download: DownloadOutcome, upload: UploadOutcome)
    requires WellFormed(download)
    requires Convert(url, cfg, client, download, upload).Success?
    ensures var p := Convert(url, cfg, client, download, upload).value;
      var dir := ScratchAfter(url, cfg, client, download);
      && p.blobName in dir && dir[p.blobName] == p.data
      && IsMp3(p.blobName) && '/' !in p.blobName
  {
    var p := Convert(url, cfg, client, download, upload).value;
    var episodeId := ParseEpisodeId(url).value;
    assert p.blobName == episodeId + Mp3Suffix;
  }

  /**
   * Two successful requests write the same blob only when their URLs carry the same
   * episode id, so an overwrite only ever replaces an earlier copy of that episode.
   */
  lemma SameBlobOnlyForSameEpisode(url1: string, url2: string, cfg: Config, client: ClientOutcome,
                                   d1: DownloadOutcome, d2: DownloadOutcome, upload: UploadOutcome)
    requires WellFormed(d1) && WellFormed(d2)
    requires Convert(url1, cfg, client, d1, upload).Success?
    requires Convert(url2, cfg, client, d2, upload).Success?
    ensures Convert(url1, cfg, client, d1, upload).value.blobName
         == Convert(url2, cfg, client, d2, upload).value.blobName
        <==> ParseEpisodeId(url1) == ParseEpisodeId(url2)
  {
    BlobNameInjective(ParseEpisodeId(url1).value, ParseEpisodeId(url2).value);
  }

  /**
   * The answered URL is the client's endpoint followed by the client's container
   * and the blob name: it names the blob the upload wrote.
   */
  lemma PublishedUnderClientEndpoint(url: string, cfg: Config, client: ClientOutcome,
                                     download: DownloadOutcome, upload: UploadOutcome)
    requires WellFormed(download)
    requires Convert(url, cfg, client, download, upload).Success?
    ensures ContainerClient(cfg, client).Success?
    ensures var handle := ContainerClient(cfg, client).value;
      var p := Convert(url, cfg, client, download, upload).value;
      p.url == handle.accountUrl + "/" + handle.container + "/" + p.blobName
  {
    var handle := ContainerClient(cfg, client).value;
    var p := Convert(url, cfg, client, download, upload).value;
    assert p.url == "https://" + cfg.account.value + ".blob.core.windows.net/" + cfg.container.value + "/" + p.blobName;
  }
}
