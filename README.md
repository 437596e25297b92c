# Spotify episode to blob storage: the `/convert` handler

This project models the decision logic of the podcast service's `POST /convert`
handler (`app/main.py`). The handler takes a Spotify episode URL and runs these steps:

1. It recognises the URL with the anchored pattern
   `^https://open\.spotify\.com/episode/([a-zA-Z0-9]+)` and takes the episode id.
2. It checks that the storage account, key and container are configured and builds a container client.
3. It runs the `spotdl` downloader into a fresh temporary directory.
4. It picks the first `*.mp3` the directory yields and renames it to `<episode id>.mp3`.
5. It uploads that file as the blob `<episode id>.mp3`, overwriting any earlier blob of that name.
6. It answers with `https://<account>.blob.core.windows.net/<container>/<episode id>.mp3`.

The first step that fails decides the answer:
- an unrecognised URL is a 400;
- missing configuration, a client error, a failed download, no `.mp3` found and a failed upload are each a 500 with their own detail text.

The external collaborators are inputs of the model:
- the environment settings (`Storage.Config`, with `None` for an unset variable);
- whether building the client raised (`Conversion.ClientOutcome`);
- what the downloader did (`Conversion.DownloadOutcome`): either the files it left plus the order in which the directory lists them, or its standard-error text;
- whether the store accepted the upload (`Storage.UploadOutcome`).

The rest is modelled as follows:
- The recogniser, the settings check and the names and URLs are pure functions.
- `Conversion.Convert` is the whole request as one function of those inputs.
- The scratch directory (`Scratch.ScratchDir`) is a class whose `files` map is changed in place by the downloader's output and by the rename.
- The remote container (`Storage.Container`) is a class whose `blobs` map is overwritten by an upload.
- `Conversion.HandleConvert` runs the steps one by one against these two objects, with early returns. It is proved to answer what `Convert` says, to leave the directory as `ScratchAfter` says and to write the container only on success.

Modules: `Wrappers` (Option, Result), `EpisodeUrl` (the pattern), `Scratch`
(the glob and the rename), `Storage` (settings, names, URLs, the container),
`Conversion` (the handler and the properties of its outcome).

The handler accepts only Spotify episode URLs and looks only for `*.mp3` output.

## Model

| member | source | states |
|---|---|---|
| EpisodeUrl.LeadingRun | app/main.py:18 | the greedy `[a-zA-Z0-9]+` takes a prefix of the text, made only of ASCII letters and digits, that the next character cannot extend |
| EpisodeUrl.ParseEpisodeId | app/main.py:35-38 | a URL is accepted iff it starts with exactly `https://open.spotify.com/episode/` followed by an ASCII letter or digit; the id is non-empty, alphanumeric, directly follows the prefix and is the maximal such run |
| EpisodeUrl.LeadingRunOfRun | app/main.py:18 | the greedy run of `id + rest` is exactly `id` when `rest` is empty or starts with a non-alphanumeric character |
| EpisodeUrl.ParseEpisodeUrl | app/main.py:35-38 | prefix + id + any trailing text that does not start with a letter or digit (a `?si=` query) parses back to exactly that id |
| EpisodeUrl.ParsedUrlDecomposes | app/main.py:35-38 | every accepted URL is the prefix, the id and a remainder that cannot extend the id |
| EpisodeUrl.ShareLinkExample | app/main.py:35-38 | a share link with a `?si=` query yields the id without the query |
| EpisodeUrl.RejectedUrlExamples | app/main.py:35-37 | `http://`, an upper-case host, an empty id, a non-alphanumeric first id character and a `/show/` path are all refused |
| Scratch.Mp3Files | app/main.py:55 | the glob `*.mp3` yields exactly the listed names ending in `.mp3`, no more entries than the listing has |
| Scratch.NoMp3Files | app/main.py:55-57 | the glob yields nothing iff no listed name ends in `.mp3` |
| Scratch.FirstMp3File | app/main.py:55-58 | the first file the glob yields is the earliest `.mp3` entry in the listing |
| Scratch.Renamed | app/main.py:59-60 | after the rename the target holds the source's bytes, the source name is gone (unless it was the target), and every other entry is untouched |
| Scratch.RenamedSize | app/main.py:60 | the rename keeps the number of entries, or loses one when it replaces an existing target |
| Scratch.ScratchDir.constructor | app/main.py:47 | a new temporary directory is empty |
| Scratch.ScratchDir.Receive | app/main.py:48-50 | the directory then holds exactly the files the downloader produced |
| Scratch.ScratchDir.Rename | app/main.py:60 | renames in place: the new contents are `Renamed` of the old |
| Storage.AllSet | app/main.py:25 | `all([...])` is true iff every value is present and not the empty string |
| Storage.CompleteSettings | app/main.py:21-26 | settings are available iff account, key and container are each set and non-empty, and then they are exactly those three values |
| Storage.BlobName | app/main.py:59-62 | the renamed file and the blob are named `<episode id>.mp3`, which still matches `*.mp3` and begins with the id |
| Storage.BlobNameInjective | app/main.py:62 | two blob names are equal iff the episode ids are equal |
| Storage.Container.UploadBlob | app/main.py:63-67 | on success the named blob holds the data, replacing any earlier blob; on failure the store is unchanged and the error text is returned |
| Conversion.ContainerClient | app/main.py:40-45 | the client is available iff the settings are complete and construction did not raise; it then addresses the configured container at `https://<account>.blob.core.windows.net` with the configured key (lines 27-30); the missing-settings 500 passes through unchanged; any other error becomes a 500 with its text |
| Conversion.Convert | app/main.py:33-73 | a failure is a 400 iff the URL is refused, else a 500; a success needs every step to succeed, publishes `<episode id>.mp3` with the bytes of a downloaded `.mp3`, and answers with the blob URL in the configured account and container |
| Conversion.ScratchAfter | app/main.py:47-60 | the scratch directory is never written when the URL or the client step fails |
| Conversion.HandleConvert | app/main.py:33-73 | the step-by-step handler answers what `Convert` says, leaves the scratch directory as `ScratchAfter` says, and writes the container (the one blob `Convert` names) only on success |
| Conversion.InvalidUrlFirst | app/main.py:35-37 | an unrecognised URL is a 400 "Invalid Spotify episode URL" whatever the configuration and the outcomes, and nothing is downloaded |
| Conversion.MissingConfigSecond | app/main.py:40-43 | with a valid URL, an unset or empty account, key or container is a 500 "Missing Azure Storage configuration", and nothing is downloaded |
| Conversion.ClientFailureThird | app/main.py:44-45 | a client construction error is a 500 carrying the error's text, and nothing is downloaded |
| Conversion.DownloadFailureFourth | app/main.py:49-53 | a failed download is a 500 with detail exactly "Download failed: " + stderr, whatever the upload would do |
| Conversion.NoMp3Fifth | app/main.py:55-57 | a download with no `*.mp3` is a 500 "MP3 file not found after download", and the scratch directory stays as downloaded |
| Conversion.PublishesFirstMp3 | app/main.py:55-73 | the earliest `.mp3` entry is renamed to `<episode id>.mp3` and nothing else changes. A failed upload is then a 500 "Upload failed: " + error. A successful one publishes that file's bytes and answers `"https://" + account + ".blob.core.windows.net/" + container + "/" + id + ".mp3"` |
| Conversion.UploadedIsRenamedFile | app/main.py:58-65 | the uploaded bytes are those of the renamed file in the scratch directory, and the blob name matches `*.mp3` and contains no `/` |
| Conversion.PublishedUnderClientEndpoint | app/main.py:69-72 | on success the answered URL is the client's endpoint followed by `/<client's container>/<blob name>`, so it names the blob the upload wrote |
| Conversion.SameBlobOnlyForSameEpisode | app/main.py:62-65 | two successful requests write the same blob iff their URLs carry the same episode id |

## Left out

- The `spotdl` subprocess (app/main.py:48-50) is opaque. It is an input: either the files it left with their listing order, or its standard-error text.
- The UTF-8 decoding of standard error (app/main.py:52) is not modelled. The input is the decoded text, or the empty string when there was none. An undecodable stderr, which would raise inside the handler, is not modelled.
- The Azure SDK (`BlobServiceClient`, `get_container_client`, `upload_blob`) is a foreign library. Client construction is an ok/fail input. The container is a map from blob name to bytes whose upload succeeds or fails as an input says.
- The creation and removal of the temporary directory and the reading of the file's bytes are file-system I/O. The directory is a map, and the uploaded bytes are the map's entry.
- The file system's enumeration order behind `glob` is an input, `listing`. Any order is allowed as long as it lists every entry exactly once.
- The glob also matches directories and hidden entries named `*.mp3`. The model does not distinguish files from directories.
- Reading the environment (`os.getenv`) is replaced by a `Config` parameter read once. The source reads the account and container a second time to build the answer (app/main.py:70-71). The model uses the checked values, which differs only if the environment changes during a request.
- Exceptions the handler does not catch are not modelled: for example a failing temporary-directory creation (app/main.py:47), a missing `spotdl` executable (app/main.py:50), a failing directory scan (app/main.py:55) or a failing rename (app/main.py:60). In the service they surface as the framework's generic 500.
- The FastAPI/pydantic request binding, the HTTP framework and the response's JSON encoding are not modelled. The answer is the URL string or an `HttpError(status, detail)`.
- Conversion.ScratchAfter: after a failed download it says the empty directory. The model does not track partial files the downloader may leave, since the directory is discarded.
- Concurrent requests writing the same blob (last writer wins) are not modelled, because each request is modelled on its own.
