/** One playlist job: fetch the playlist's tracks, shape them into the
    `{name, songs}` document and write it to a file named after the playlist. */
module Playlists {
  import opened Results
  import opened Config

  /** The parts of the provider's track listing the job reads. */
  datatype Image = Image(url: string)
  datatype Album = Album(name: string, images: seq<Image>)
  datatype Artist = Artist(name: string)
  datatype Track = Track(name: string, artists: seq<Artist>, album: Album, durationMs: int)
  datatype TrackItem = TrackItem(track: Track)

  /** The saved shape of one track and of one playlist. */
  datatype Song = Song(title: string, artist: seq<string>, album: string, albumArtUrl: string, durationMs: int)
  datatype Playlist = Playlist(name: string, songs: seq<Song>)

  /** One entry of the account's playlist listing. */
  datatype PlaylistRef = PlaylistRef(id: string, name: string)

  /** The arguments of one `get_playlist` call. */
  datatype Job = Job(token: string, playlistId: string, playlistName: string)

  /** Saved documents, keyed by file path. */
  type Store = map<string, Playlist>

  /** The provider's track endpoint: the listing for `(token, playlist id)`,
      or the message of the exception the request or its decoding raised. */
  type Fetcher = (string, string) -> Result<seq<TrackItem>, string>

  const JsonSuffix: string := ".json"
  const IndexOutOfRange: string := "list index out of range"

  /** The message of the `FileNotFoundError` that opening `path` for
      writing raises when a directory on the path does not exist. */
  function NoSuchFile(path: string): string {
    "[Errno 2] No such file or directory: '" + path + "'"
  }

  /** The song for an item reads the first album image, so it exists. */
  predicate HasAlbumArt(item: TrackItem) {
    |item.track.album.images| > 0
  }

  predicate AllHaveAlbumArt(items: seq<TrackItem>) {
    forall i :: 0 <= i < |items| ==> HasAlbumArt(items[i])
  }

  function ArtistNames(artists: seq<Artist>): (names: seq<string>)
    ensures |names| == |artists|
  {
    seq(|artists|, i requires 0 <= i < |artists| => artists[i].name)
  }

  function SongOf(item: TrackItem): Song
    requires HasAlbumArt(item)
  {
    var t := item.track;
    Song(t.name, ArtistNames(t.artists), t.album.name, t.album.images[0].url, t.durationMs)
  }

  /** The loop over the listing that appends one song per item: songs come
      out one per item, in the listing's order, each carrying its item's
      title, ordered artist names, album name, first image and duration. */
  function ShapeSongs(items: seq<TrackItem>): (songs: seq<Song>)
    requires AllHaveAlbumArt(items)
    ensures |songs| == |items|
    ensures forall i :: 0 <= i < |items| ==>
      && songs[i].title == items[i].track.name
      && songs[i].album == items[i].track.album.name
      && songs[i].albumArtUrl == items[i].track.album.images[0].url
      && songs[i].durationMs == items[i].track.durationMs
      && |songs[i].artist| == |items[i].track.artists|
      && (forall j :: 0 <= j < |songs[i].artist| ==> songs[i].artist[j] == items[i].track.artists[j].name)
  {
    if |items| == 0 then []
    else ShapeSongs(items[..|items| - 1]) + [SongOf(items[|items| - 1])]
  }

  function ShapePlaylist(name: string, items: seq<TrackItem>): (p: Playlist)
    requires AllHaveAlbumArt(items)
  {
    Playlist(name, ShapeSongs(items))
  }

  /** Shaping commutes with concatenating listings: no song moves across the
      boundary, so order is preserved. */
  lemma {:induction false} ShapeSongsAppend(a: seq<TrackItem>, b: seq<TrackItem>)
    requires AllHaveAlbumArt(a) && AllHaveAlbumArt(b)
    ensures AllHaveAlbumArt(a + b)
    ensures ShapeSongs(a + b) == ShapeSongs(a) + ShapeSongs(b)
    decreases |b|
  {
    assert AllHaveAlbumArt(a + b) by {
      forall i | 0 <= i < |a + b| ensures HasAlbumArt((a + b)[i]) {
        if i >= |a| { assert (a + b)[i] == b[i - |a|]; }
      }
    }
    if |b| == 0 {
      assert a + b == a;
    } else {
      var b' := b[..|b| - 1];
      assert (a + b)[..|a + b| - 1] == a + b';
      assert (a + b)[|a + b| - 1] == b[|b| - 1];
      assert AllHaveAlbumArt(b') by {
        forall i | 0 <= i < |b'| ensures HasAlbumArt(b'[i]) { assert b'[i] == b[i]; }
      }
      ShapeSongsAppend(a, b');
    }
  }

  /** The file a playlist is written to: the directory, the name, `.json`. */
  function Filename(dir: string, name: string): string {
    dir + name + JsonSuffix
  }

  /** Equal names share a file and distinct names get distinct files. */
  lemma FilenameInjective(dir: string, a: string, b: string)
    ensures Filename(dir, a) == Filename(dir, b) <==> a == b
  {
    if Filename(dir, a) == Filename(dir, b) {
      var f := Filename(dir, a);
      assert |a| == |b|;
      assert a == f[|dir|..|dir| + |a|];
      assert b == Filename(dir, b)[|dir|..|dir| + |b|];
    }
  }

  /** Writing a document replaces whatever the file held and touches no
      other file. */
  function Save(store: Store, dir: string, p: Playlist): (r: Store)
    ensures r.Keys == store.Keys + {Filename(dir, p.name)}
    ensures r[Filename(dir, p.name)] == p
    ensures forall f :: f in store && f != Filename(dir, p.name) ==> r[f] == store[f]
  {
    store[Filename(dir, p.name) := p]
  }

  /** Of two saves under the same name the later one wins. */
  lemma SaveOverwrites(store: Store, dir: string, p: Playlist, q: Playlist)
    requires p.name == q.name
    ensures Save(Save(store, dir, p), dir, q) == Save(store, dir, q)
  {
  }

  /** Saves under distinct names are independent of their order. */
  lemma SavesCommute(store: Store, dir: string, p: Playlist, q: Playlist)
    requires p.name != q.name
    ensures Save(Save(store, dir, p), dir, q) == Save(Save(store, dir, q), dir, p)
  {
    FilenameInjective(dir, p.name, q.name);
  }

  /** Whether a job gets through: its fetch succeeds, every track it lists
      has an album image, and its name holds no `/`, which would put the
      file in a subdirectory nobody created. This does not depend on the
      files already written. */
  predicate JobSucceeds(fetch: Fetcher, job: Job) {
    && fetch(job.token, job.playlistId).Success?
    && AllHaveAlbumArt(fetch(job.token, job.playlistId).value)
    && '/' !in job.playlistName
  }

  /** One `get_playlist` call, writing under the playlist directory of
      `home`. It raises, writing nothing, when the fetch raised, when some
      track has no album image, or when opening the file fails because the
      name holds a `/`; otherwise it writes the shaped playlist under the
      job's name and leaves every other file as it was. */
  function GetPlaylist(home: Option<string>, fetch: Fetcher, store: Store, job: Job): (r: Result<Store, string>)
    ensures r.Success? <==> JobSucceeds(fetch, job)
    ensures fetch(job.token, job.playlistId).Failure? ==> r == Failure(fetch(job.token, job.playlistId).error)
    ensures fetch(job.token, job.playlistId).Success? && !AllHaveAlbumArt(fetch(job.token, job.playlistId).value) ==>
      r == Failure(IndexOutOfRange)
    ensures fetch(job.token, job.playlistId).Success? && AllHaveAlbumArt(fetch(job.token, job.playlistId).value) ==>
      ('/' in job.playlistName ==> r == Failure(NoSuchFile(Filename(PlaylistDir(home), job.playlistName))))
    ensures r.Success? ==>
      var items, f := fetch(job.token, job.playlistId).value, Filename(PlaylistDir(home), job.playlistName);
      && r.value.Keys == store.Keys + {f}
      && r.value[f].name == job.playlistName
      && r.value[f].songs == ShapeSongs(items)
      && (forall g :: g in store && g != f ==> r.value[g] == store[g])
  {
    match fetch(job.token, job.playlistId)
    case Failure(e) => Failure(e)
    case Success(items) =>
      if !AllHaveAlbumArt(items) then Failure(IndexOutOfRange)
      else if '/' in job.playlistName then Failure(NoSuchFile(Filename(PlaylistDir(home), job.playlistName)))
      else Success(Save(store, PlaylistDir(home), ShapePlaylist(job.playlistName, items)))
  }
}
