# spotify-to-mp3: a Dafny model of the export core

The program exports a user's playlists from the music service to local JSON
files. It obtains an access token through the OAuth2 Authorization Code
grant. The browser is sent to the provider's authorize URL, and the provider
redirects to a small local HTTP server that exchanges the code for a token.
The program then lists the account's playlists 50 at a time. It fetches each
page's playlists with one thread pool per page and writes one JSON file per
playlist. A second script trims a YouTube Music watch URL before calling a
downloader.

This project restates the pure logic inside that plumbing as Dafny functions
over explicit inputs and proves what it guarantees:

- `Config`: the environment the script reads, the start-up credential guard
  and the output directory.
- `Authorize`: the authorize URL opened in the browser, and whether the
  parameters it is meant to carry can be read back from it.
- `Callback`: the GET handler of the redirect endpoint. It covers the path
  test, the code taken out with `split("=")[1]`, the token request form
  (section 4.1.3 of RFC 6749), the reply and the start of the export.
- `Headers`: the request headers, whose `Authorization` value is `Bearer `
  followed by the token.
- `Playlists`: song shaping, the output filename, the store of written
  files and one `get_playlist` job.
- `Pool`: the worker pool run sequentially. Each task is taken once and
  marked done whether or not it raised. `wait_completion` returns once
  nothing is unfinished.
- `Pagination`: the listing loop of `save_all_playlists`, written as a
  method with loop invariants over an abstract provider.
- `Export`: the batch-after-batch run of `get_playlist` jobs through the
  pools, and which files it leaves with which content.
- `WatchUrl`: the `&list` trimming of the download script.
- `Text`, `Query`, `Results`: Python `split`/`find`/`startswith`, query
  strings, and `Option`/`Result`.

The network becomes function parameters. A form POST is a function from
the URL posted to and the form to a decoded JSON object or an exception
message. The playlist listing is a function from offset to a page or an
exception message. The track endpoint is a function from (token, playlist
id) to a track listing or an exception message. The file system is a map
from path to written document, and a write fails only for a name holding
`/`. The clock and the browser are left out.

Where the code departs from section 4.1 of RFC 6749 or from a pagination
loop that advances by what it has read, the model follows the code:

- The listing offset grows by the limit (50), not by the number of items
  returned. `Pagination.OffsetMatchesItemsRead` shows when this matters:
  the two agree exactly when every earlier page was full.
- The authorize URL is pasted together without percent-encoding. It
  carries a raw space from the scope. A reader that splits at `&` and then
  at each piece's first `=`, without percent-decoding, gets the intended
  parameters back only when the application id holds no `&`.
- The handler keeps no state. Every request to the callback path exchanges
  its code and starts an export again; nothing makes the flow single-use.
- A token answer without `access_token` does not stop the flow. The export
  thread is started with no token and raises when it builds the headers.
- A GET for any other path sends no reply at all.
- The username hint in the authorize URL is the literal text `USER_ID`,
  not the user id.

## Model

| member | source | states |
|---|---|---|
| Config.CheckEnvironment | spotify-export.py:220-225 | start-up succeeds iff APP_ID, APP_SECRET and USER_ID are all set and non-empty; the credentials passed on are exactly those values; otherwise the fixed error message |
| Config.PlaylistDir | spotify-export.py:22 | the playlist directory is `HOME` (or the text `None` when unset) followed by `/.cache/spotify-to-mp3/playlists/`, so it ends in `/` |
| Authorize.AuthorizeUrlShape | spotify-export.py:236-243 | the authorize URL is the endpoint, `?`, and the five parameters client_id, response_type, redirect_uri, scope, username joined by `&` in that order |
| Authorize.AuthorizeUrlReadsBack | spotify-export.py:241-243 | reading the URL's query (split at `&`, then at each piece's first `=`, no percent-decoding) gives back exactly the intended parameters iff the application id contains no `&` |
| Authorize.AuthorizeUrlHasRawSpace | spotify-export.py:239-243 | the URL contains a raw space (from the scope), since nothing is percent-encoded |
| Query.ParseJoinQuery | spotify-export.py:241-243 | a non-empty parameter list is read back from its `k=v&...` rendering iff no key or value contains `&` and no key contains `=` |
| Headers.GetHeaders | spotify-export.py:65-71 | headers exist iff a token exists; Accept and Content-Type are JSON; the Authorization value carries exactly the token as a Bearer credential; no token makes the concatenation raise |
| Headers.BearerCredential | spotify-export.py:70 | an Authorization value yields a credential iff it starts with `Bearer `, and the value is `Bearer ` followed by that credential |
| Callback.ExtractCode | spotify-export.py:164-165 | the code contains no `=`, is a prefix of what follows `/callback?code=`, and is followed by `=` or the end of the path |
| Callback.ExtractCodeRoundTrip | spotify-export.py:165 | the code read from `/callback?code=` + c is c iff c contains no `=` |
| Callback.ExtractCodeStopsAtEquals | spotify-export.py:165 | everything after the code's first `=` is dropped |
| Callback.ExtractCodeEmpty | spotify-export.py:164-165 | a bare `/callback?code=` yields the empty code |
| Callback.ExtractCodeKeepsAmpersand | spotify-export.py:165 | `&` is not a delimiter: `/callback?code=abc&state=xyz` yields `abc&state` |
| Callback.HandleGet | spotify-export.py:163-196 | a GET does nothing iff its path does not start with `/callback?code=`; otherwise the token form, posted to the token endpoint, has grant_type `authorization_code`, the extracted code, the redirect URI of the authorize URL and the credentials; a raising exchange gives no reply and no export; a successful one serves the page and starts the export with the `access_token` field, present or not |
| Callback.TokenlessExchangeAbortsExport | spotify-export.py:182-196 | an answer without `access_token` still starts the export, with no token, and the export's header building raises |
| Callback.UnrelatedPathIgnored | spotify-export.py:163-164 | a GET for `/unrelated` does nothing |
| Callback.RedirectReachesHandler | spotify-export.py:163-165 | the redirect to the authorize URL's redirect URI (line 237) with `?code=` c reaches the handler as a callback path, and the handler reads back c iff c contains no `=` |
| Text.Split | spotify-export.py:165 | `split` on one character gives at least one piece, no piece holds the separator, the first piece ends at the first separator, and joining the pieces gives back the input |
| Text.SplitJoin | spotify-export.py:165 | splitting a join of separator-free pieces gives back the pieces |
| Playlists.ShapeSongs | spotify-export.py:91-103 | one song per track item in the same order, each with its item's title, ordered artist names, album name, first image url and duration |
| Playlists.ShapeSongsAppend | spotify-export.py:93-103 | shaping two listings one after the other equals shaping their concatenation, so no song is reordered |
| Playlists.FilenameInjective | spotify-export.py:105 | two playlist names give the same file iff they are equal |
| Playlists.Save | spotify-export.py:105-107 | writing a playlist puts it under its filename and leaves every other file as it was |
| Playlists.SaveOverwrites | spotify-export.py:105-107 | of two saves under the same name, the later one wins |
| Playlists.SavesCommute | spotify-export.py:105-107 | saves under distinct names do not interfere |
| Playlists.GetPlaylist | spotify-export.py:74-110 | a job raises, writing nothing, iff the fetch raised (with its message), a track has no album image (with `list index out of range`) or the name holds `/` (with the `FileNotFoundError` for its path); otherwise it writes the shaped playlist to `<playlist dir><name>.json` and leaves every other file as it was |
| Pool.WorkerStep | spotify-export.py:34-44 | a worker takes the first task, the unfinished count drops by one whether it succeeded or raised, a raised task leaves the world unchanged and is logged with its error |
| Pool.WorkerStepKeepsIdle | spotify-export.py:34-44 | a worker step keeps the unfinished count equal to the queue length, so `task_done` is never called too often |
| Pool.RunToCompletion | spotify-export.py:34-62 | draining the queue runs every queued task exactly once in queue order, raising ones included; task i runs on the world the tasks before it left and is logged with the error it raised, if any; the final world is the in-order fold of the successful tasks; the unfinished count drops by the number of tasks |
| Pool.BarrierReleases | spotify-export.py:60-62 | after a batch is submitted and drained nothing is unfinished, so `wait_completion` returns, and the log holds the batch's tasks exactly once in order |
| Pagination.Zip3 | spotify-export.py:144-148 | `zip` of three lists is as long as the shortest and pairs up elements position by position |
| Pagination.MakeBatch | spotify-export.py:141-149 | a page's batch has pool size and job count equal to the page length, and job i carries the token and item i's id and name |
| Pagination.SaveAllPlaylists | spotify-export.py:126-150 | without a token it raises before any request; otherwise request k goes to the user's playlists with limit 50, offset 50·k and the token's headers; the loop stops at the first empty page or at the first request that raises, reporting that exception; every earlier page gets exactly one batch |
| Pagination.JobCount | spotify-export.py:130-150 | the number of jobs of a run, finished or cut short, equals the total size of the non-empty pages it read |
| Pagination.OffsetMatchesItemsRead | spotify-export.py:127-136 | with pages of at most 50 items, the offset of request k never falls short of the items read, and equals it iff every earlier page was full |
| Pool.Submit | spotify-export.py:50-58 | a new pool's `map` queues the tasks in order with one unfinished count per task, so every unfinished task is queued |
| Pool.ApplyAppend | spotify-export.py:141-150 | running two task lists one after the other, as two pools in sequence do, is running their concatenation |
| Pool.TraceAppend | spotify-export.py:141-150 | the log of two task lists run one after the other is the log of the first followed by that of the second on the world the first left |
| Export.ExportBatches | spotify-export.py:141-150 | running the batches pool after pool leaves the files and the log exactly as running all jobs in one queue, in order |
| Export.ExportLog | spotify-export.py:34-44 | every job is logged once, in order, without error iff its fetch succeeded, every track has an album image and its name holds no `/`; otherwise with the fetch's exception, `list index out of range`, or the `FileNotFoundError` for its path |
| Export.ApplyJobsKeys | spotify-export.py:105-107 | after the jobs run, the files are the earlier ones plus the file of each job that got through |
| Export.ApplyJobsUntouched | spotify-export.py:37-44 | a file no successful job writes keeps its content, so a job that raised changes nothing |
| Export.ApplyJobsLastWrite | spotify-export.py:91-107 | the file of a successful job that no later successful job shares a name with holds that job's shaped playlist |
| Export.ExportFiles | spotify-export.py:126-150 | after the whole export the files are the earlier ones plus those of the successful jobs; files no successful job writes are unchanged; the last successful job of each name determines its file |
| Export.ExportRerun | spotify-export.py:126-150 | exporting again against unchanged answers leaves exactly the files the first export left: every written file gets the same document again; this rests on the serial order admitted under `Pool.RunToCompletion`, since in the source two same-named jobs on one page race and a re-run may leave a different document |
| Pagination.SampleRun | spotify-export.py:127-150 | against pages of 50, 50, 13 and 0 items a run makes 4 requests and 3 batches with 113 jobs |
| Text.Find | download-mp3-from-query.py:46 | `find` returns -1 iff the pattern does not occur, and otherwise the lowest index where it occurs |
| WatchUrl.TrimWatchUrl | download-mp3-from-query.py:46-48 | the result is a prefix of the URL without `&list`; it is the whole URL when `&list` does not occur, and otherwise ends right before the first occurrence |
| WatchUrl.TrimIdempotent | download-mp3-from-query.py:46-48 | trimming a trimmed URL changes nothing |
| WatchUrl.TrimAtMarker | download-mp3-from-query.py:46-48 | a URL with no `&` before `&list` is cut to exactly what precedes it |
| WatchUrl.TrimExample | download-mp3-from-query.py:45-48 | the example watch URL with `&list=RDAMVM1wYNFfgrXTI` trims to `https://music.youtube.com/watch?v=1wYNFfgrXTI` |

## Left out

- The HTTP server machinery, the confirmation page's transport, `do_HEAD` and `do_POST`: these are I/O and do not affect the flow.
- All `requests` calls and JSON decoding: responses arrive as parsed records, and a missing key read with `.get()` is not modelled, except for `access_token`.
- The token request body's own form-encoding: the `requests` library does it, so the model keeps the form as a record.
- Real threads, queue blocking, the queue's bound and daemon flags. Tasks run one after another in queue order, and the thread that runs the export after the callback is represented by the token it receives.
- Pool.RunToCompletion: fixes one order for the tasks of a page, while the source's threads run them at the same time. Two same-named jobs on one page each truncate the file and write it through their own buffer, so the writes may interleave and the file may end up as either document or a mixture of both; the model, and with it Export.ApplyJobsLastWrite and Export.ExportFiles, lets the later job in page order win.
- `json.dump` output, `os.makedirs`, `time.sleep`, `print` and `webbrowser.open`.
- Playlists.GetPlaylist: a name holding `/` is modelled as raising `FileNotFoundError`, which is what happens when the subdirectory it names does not exist. In the source, a name starting with `/` makes `os.path.join` drop the directory, and a name whose directories happen to exist (such as `../playlists/x`) is written; neither case is modelled. Python quotes the path in the message with `repr`, which differs from the plain quotes of the model for paths holding a quote or a backslash. Other failures of `open` are not modelled either: a name too long for the file system (`OSError` errno 36), a name holding a NUL character (`ValueError`), a permission error or a full disk; such a job counts as a success and its file as written.
- Playlists.GetPlaylist: the provider's track endpoint pages its results, and the source reads only the first page; the model takes the listing as given.
- Python's `str.find` with an empty pattern and `split` with multi-character separators: the program never uses them.
- Pagination.SaveAllPlaylists: requires a request the provider answers with an empty page or an exception; a listing that never ends, on which the source loops forever, is not modelled.
- Authorize.AuthorizeUrlReadsBack: the query reader does no percent-decoding, so the equivalence is about the raw text; a decoding reader would also change an application id that holds `%` or `+`.
- Selenium driving, `urllib.parse.urlencode`, the button-polling loop and the `youtube-dl` subprocess of the download script.
