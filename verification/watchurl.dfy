/** The one piece of pure logic in the download script: cutting the
    playlist context off a watch URL before handing it to the downloader. */
module WatchUrl {
  import opened Text

  const ListMarker: string := "&list"

  /** The URL up to, not including, the first `&list`; the whole URL when
      there is none. */
  function TrimWatchUrl(url: string): (r: string)
    ensures StartsWith(url, r)
    ensures !Contains(r, ListMarker)
    ensures !Contains(url, ListMarker) ==> r == url
    ensures Contains(url, ListMarker) ==>
      OccursAt(url, ListMarker, |r|) && forall j: nat :: j < |r| ==> !OccursAt(url, ListMarker, j)
  {
    var pos := Find(url, ListMarker);
    if pos != -1 then
      var r := url[..pos];
      forall j: nat | j <= |r| ensures !OccursAt(r, ListMarker, j) {
        if j + |ListMarker| <= |r| {
          assert r[j..j + |ListMarker|] == url[j..j + |ListMarker|];
          assert !OccursAt(url, ListMarker, j);
        }
      }
      r
    else
      url
  }

  /** Trimming a trimmed URL changes nothing. */
  lemma TrimIdempotent(url: string)
    ensures TrimWatchUrl(TrimWatchUrl(url)) == TrimWatchUrl(url)
  {
  }

  /** With no `&` before the marker, the trim keeps exactly what precedes it. */
  lemma TrimAtMarker(head: string, tail: string)
    requires '&' !in head
    ensures TrimWatchUrl(head + ListMarker + tail) == head
  {
    var url := head + ListMarker + tail;
    var r := TrimWatchUrl(url);
    assert OccursAt(url, ListMarker, |head|) by {
      assert url[|head|..|head| + |ListMarker|] == ListMarker;
    }
    forall j: nat | j < |head| ensures !OccursAt(url, ListMarker, j) {
      assert url[j] == head[j];
      assert head[j] in head;
    }
  }

  /** The watch page of the URL the script trims in practice, and the
      playlist context appended to it. */
  const ExampleWatch: string := "https://music.youtube.com/" + "watch?v=1wYNFfgrXTI"
  const ExampleContext: string := "&list=RDAMVM1wYNFfgrXTI"

  lemma TrimExample()
    ensures TrimWatchUrl(ExampleWatch + ExampleContext) == ExampleWatch
  {
    var site, query := "https://music.youtube.com/", "watch?v=1wYNFfgrXTI";
    assert '&' !in site && '&' !in query;
    var tail := "=RDAMVM1wYNFfgrXTI";
    assert ExampleContext == ListMarker + tail;
    ConcatAssoc(ExampleWatch, ListMarker, tail);
    TrimAtMarker(ExampleWatch, tail);
  }
}
